# three-portfolio in Dafny

This is a verified model of the logic in the three-portfolio site, a Next.js
portfolio with a Three.js scene and a small admin CMS. The model covers these parts:

- **The project store** (`Cms`, lib/cms.ts). The JSON portfolio document is held in
  memory as a `PortfolioDocument` object: a project table plus opaque `about` and
  `settings` parts. The object has the list, get, create, update and delete
  operations, and `generateId`'s id format.
- **The two client stores** (`Stores`, lib/store.ts). The portfolio store has five
  setters. The UI store has three toggles and a theme setter.
- **The admin project editor** (`ProjectForm`, components/admin/ProjectForm.tsx). It
  covers the trimmed, de-duplicating technology append, the remove-every-copy filter,
  the prefill from an edited project, and the method, URL and payload that a save sends.
- **The card layout** (`ProjectCards`, components/3d/ProjectCards.tsx). It covers
  default positions by pre-filter index, the category filter, the shape of a card per
  category and performance mode, and the hover targets.
- **The orbit controls** (`SceneControls`, components/3d/Scene.tsx). This is the
  `controls` record and its mouse-down, mouse-move, mouse-up and wheel handlers,
  with the clamped distance and polar angle.
- **The skill chart** (`SkillChart`, components/3d/SkillVisualization.tsx). It covers
  the distinct categories in first-seen order, the per-category count and average,
  the bar label, the orb particle count and the spiral radius.
- **The floating code windows** (`FloatingCode`, components/3d/FloatingCodeElements.tsx).
  It covers the priority-ordered line colour classifier, the `$` prompt rule of
  terminal lines, the line-number labels and the particle count.

Shared modules:

- `Wrappers` holds `Option`.
- `Sequences` holds subsequences and duplicate-freedom.
- `Text` holds the JavaScript string operations used: `trim` over the ECMAScript
  whitespace set, `includes`, `startsWith`, `substring`, `substr`, `padStart`, and
  decimal rendering with its read-back.
- `PortfolioTypes` holds the records of lib/types.ts, the category tables of
  lib/constants.ts, and the "all" filter value that the stores and the card layout share.

Modelling choices:

- `createdAt` is an integer number of milliseconds. The sort compares
  `new Date(..).getTime()` values, and this integer stands for one.
- `getProjects` is JavaScript's stable sort, so records created at the same instant
  keep their stored order.
- `getProject` searches the sorted list. When two records share an id, it finds the
  newer one, and of two equally new ones the one stored first.
- `Project.position` is optional. lib/types.ts declares it mandatory. The document is
  never validated, though, and the card layout supplies a default when it is missing.
  Here the code's handling wins over the declared type.
- Numbers are `real`, and `Math.PI` is the literal 3.141592653589793.
- The nondeterministic inputs are parameters of `CreateProject`: `Date.now()`, the
  `Math.random().toString(36)` text and the creation time.

## Model

| member | source | states |
|---|---|---|
| Cms.SortNewestFirst | lib/cms.ts:27-30 | The result is ordered by non-increasing creation time and is a permutation of the input. For every instant, the records created then keep their stored relative order (a stable sort). |
| Cms.FindIndex | lib/cms.ts:52 | The result is the first index whose record has the id. It is -1 exactly when no record has it. |
| Cms.FindById | lib/cms.ts:34 | A record is found iff some record has the id. A found record has that id and is the one at the first index with it. |
| Cms.Lookup | lib/cms.ts:32-35 | A record is found iff some stored record has the id. The found record has the id, is stored, and is the newest record with that id. Every same-id record stored before it is strictly older, so among equally new records the first stored one is found. |
| Cms.StoredFirstAmongNewest | lib/cms.ts:27-34 | Searching the stably sorted list finds a stored record before which every record with the same id is strictly older. |
| Cms.NewestMatch | lib/cms.ts:33-34 | In a newest-first list, the first record with an id is not older than any record with that id. |
| Cms.GenerateId | lib/cms.ts:76-78 | The id starts with "project-". Next come the clock's decimal digits, then '-', then what `substr(2, 9)` takes of the random text. |
| Cms.NewProject | lib/cms.ts:39-43 | The new record carries exactly the input's fields plus the given id and creation time. |
| Cms.Merge | lib/cms.ts:58 | Every key the patch supplies takes the patch's value, and every key it leaves out keeps the old value. |
| Cms.MergeUnique | lib/cms.ts:58 | Those two key-wise rules admit exactly one record, the merge. |
| Cms.MergeLaws | lib/cms.ts:58 | An empty patch changes nothing. A full patch yields its record. The same patch applied twice equals applying it once. A patch without id or createdAt keeps them. |
| Cms.AfterDelete | lib/cms.ts:63-74 | With no match the table is unchanged. Otherwise exactly the first matching record is removed, the rest keep their order, and the length drops by one. |
| Cms.AfterUpdate | lib/cms.ts:50-61 | The length is kept. With no match the table is unchanged. Otherwise only the first matching index is replaced, by the merge of the old record and the patch. |
| Cms.CreateThenLookup | lib/cms.ts:37-48 | After appending a record whose id was not stored, a lookup of that id returns exactly that record. |
| Cms.CreateThenDelete | lib/cms.ts:63-74 | Deleting a freshly created id restores the table, and a later lookup finds nothing. |
| Cms.PortfolioDocument.constructor | lib/types.ts:40-44 | The document holds the given projects, about and settings. |
| Cms.PortfolioDocument.GetProjects | lib/cms.ts:27-30 | The method returns the stored records newest first. The result is a permutation of them and is stable per creation instant. |
| Cms.PortfolioDocument.GetProject | lib/cms.ts:32-35 | The method returns none iff no stored record has the id. Otherwise it returns a stored record with that id, the newest such record, and the first stored one among equally new records. |
| Cms.PortfolioDocument.CreateProject | lib/cms.ts:37-48 | The method appends one record at the end and leaves earlier records unchanged. The record carries the input, the generated "project-" id and the creation time, and it is returned. about and settings are unchanged. |
| Cms.PortfolioDocument.UpdateProject | lib/cms.ts:50-61 | Without a match the method returns none and changes nothing. Otherwise it replaces the first matching record with the merge and returns the merged record. Every other record and the length are kept. |
| Cms.PortfolioDocument.DeleteProject | lib/cms.ts:63-74 | The method answers true iff some record has the id. Without a match nothing changes. Otherwise it splices out exactly the first match and keeps the rest in order. |
| Text.Trim | components/admin/ProjectForm.tsx:97 | The result is a slice of the input whose ends are not whitespace. Everything cut before and after it is whitespace. |
| Text.TrimIdempotent | components/admin/ProjectForm.tsx:97 | Trimming twice gives the same result as trimming once. |
| Text.Contains | components/3d/FloatingCodeElements.tsx:369 | `includes` is true iff the substring occurs at some index. |
| Text.StartsWith | components/3d/FloatingCodeElements.tsx:336 | Definition: `startsWith` holds iff the prefix is the input's first characters. |
| Text.SubstringFrom | components/3d/FloatingCodeElements.tsx:340 | `substring(start)` is the rest of the input after its first `start` characters, and empty when `start` is past the end. |
| Text.Substr | lib/cms.ts:77 | `substr(start, length)` returns the slice that starts at `start`, with at most `length` characters. The length is exact when the start is in range, and the result is empty when it is not. |
| Text.NatToString | components/3d/FloatingCodeElements.tsx:226 | The decimal rendering has at least one character, all digits, and a leading '0' only for zero. |
| Text.NatToStringRoundTrip | components/3d/FloatingCodeElements.tsx:226 | Reading the decimal rendering back gives the number. |
| Text.PadStart | components/3d/FloatingCodeElements.tsx:226 | The padded string ends with the input. It has the target width when the input was shorter. Every added character is the fill. |
| Stores.PortfolioStore.constructor | lib/store.ts:19-24 | The initial state has no projects and no selection, is loading, uses filter "all", and has the camera target at the origin. |
| Stores.PortfolioStore.SetProjects | lib/store.ts:26 | The method replaces the projects and no other field. |
| Stores.PortfolioStore.SetSelectedProject | lib/store.ts:27 | The method replaces the selection and no other field. |
| Stores.PortfolioStore.SetIsLoading | lib/store.ts:28 | The method replaces the loading flag and no other field. |
| Stores.PortfolioStore.SetFilter | lib/store.ts:29 | The method replaces the filter and no other field. |
| Stores.PortfolioStore.SetCameraTarget | lib/store.ts:30 | The method replaces the camera target and no other field. |
| Stores.MenuToggled | lib/store.ts:51 | The update negates isMenuOpen and keeps the other three fields. |
| Stores.SoundToggled | lib/store.ts:53 | The update negates soundEnabled and keeps the other three fields. |
| Stores.PerformanceModeToggled | lib/store.ts:54 | The update negates performanceMode and keeps the other three fields. |
| Stores.TogglesAreInvolutions | lib/store.ts:51-54 | Toggling twice restores the state, and toggles of different flags commute. |
| Stores.UIStore.constructor | lib/store.ts:45-49 | The initial state has the menu closed, the dark theme, sound off and performance mode off. |
| Stores.UIStore.ToggleMenu | lib/store.ts:51 | The method negates the menu flag only. |
| Stores.UIStore.SetTheme | lib/store.ts:52 | The method sets the theme and changes nothing else. |
| Stores.UIStore.ToggleSound | lib/store.ts:53 | The method negates the sound flag only. |
| Stores.UIStore.TogglePerformanceMode | lib/store.ts:54 | The method negates the performance-mode flag only. |
| ProjectForm.AcceptedTechnology | components/admin/ProjectForm.tsx:96-104 | Nothing is accepted iff the trimmed input is empty or already listed. Otherwise the accepted value is the trimmed input: non-empty, not listed, and with no whitespace at either end. |
| ProjectForm.WithoutTechnology | components/admin/ProjectForm.tsx:106-111 | No copy of the name remains. The other entries keep their order, and the length drops by the number of copies. |
| ProjectForm.TechEditKeepsNoDuplicates | components/admin/ProjectForm.tsx:96-111 | A single add or remove keeps a duplicate-free list duplicate-free. |
| ProjectForm.TechEditsKeepNoDuplicates | components/admin/ProjectForm.tsx:96-111 | Any series of adds and removes keeps a duplicate-free list duplicate-free. |
| ProjectForm.EditsFromNewFormHaveNoDuplicates | components/admin/ProjectForm.tsx:33-44 | Starting from the new form's empty list, no series of edits produces a duplicate. |
| ProjectForm.PrefilledFrom | components/admin/ProjectForm.tsx:48-63 | The form takes every one of the project's fields, and a missing URL becomes "". |
| ProjectForm.ProjectFormState.constructor | components/admin/ProjectForm.tsx:33-46 | A new editor has the empty form and an empty technology input. |
| ProjectForm.ProjectFormState.Prefill | components/admin/ProjectForm.tsx:49-64 | Given a project, the form takes its fields. A missing URL becomes "". Without a project nothing changes. |
| ProjectForm.ProjectFormState.SetNewTech | components/admin/ProjectForm.tsx:195 | The method replaces the technology input only. |
| ProjectForm.ProjectFormState.AddTechnology | components/admin/ProjectForm.tsx:96-104 | A non-blank trimmed input that is not yet listed is appended, and the input is cleared. Otherwise the list and the input are unchanged. |
| ProjectForm.ProjectFormState.RemoveTechnology | components/admin/ProjectForm.tsx:106-111 | The method drops every copy of the name and keeps the rest of the form and the input. |
| ProjectForm.Payload | components/admin/ProjectForm.tsx:73-76 | The body carries every one of the form's fields, both URLs as given, and the colour of the form's category. |
| ProjectForm.SaveRequestFor | components/admin/ProjectForm.tsx:70-76 | The request is a PUT to /api/projects/ followed by the id iff a project is being edited, and otherwise a POST to /api/projects. Its body is the payload. |
| ProjectForm.RouteId | components/admin/ProjectForm.tsx:72 | The `[id]` route reads the id of the item URL. Raw path text read as an item path is /api/projects/ followed by a non-empty id without '/'. Every such path is read as one. Percent-decoding and the query and fragment split are not modelled. |
| ProjectForm.PayloadPatch | components/admin/ProjectForm.tsx:73-76 | The body as a patch supplies every form field and never id or createdAt. A missing position or URL stays absent. |
| ProjectForm.SaveRouting | components/admin/ProjectForm.tsx:71-77 | A new project is POSTed to /api/projects. An edited one is PUT to /api/projects/ followed by its id. When that id is non-empty and has no '/', the raw path reads back exactly that id. The body is the form plus the colour of its category. |
| ProjectForm.GeneratedIdIsUrlSafe | lib/cms.ts:76-78 | An id built from a random text of unreserved characters is URL-safe: non-empty, not a dot segment, and only unreserved characters. The item route reads such an id back unchanged. |
| ProjectForm.EditSaveEffect | components/admin/ProjectForm.tsx:74-77 | An edit save keeps the record's id and creation time. The record takes every form field and the category colour, and a form without a position keeps the stored position. |
| ProjectForm.UntouchedEditRestoresProject | components/admin/ProjectForm.tsx:49-77 | Prefilling a project and saving it untouched rewrites the record to itself. This holds when the record had both URLs and its category's colour. |
| ProjectForm.PrefillThenPayload | components/admin/ProjectForm.tsx:49-77 | An untouched prefilled form sends the project's own fields. A missing URL is sent as "" and the colour is recomputed from the category. |
| ProjectCards.Placed | components/3d/ProjectCards.tsx:33-36 | A record with a position keeps it. A record without one gets (0, 0, -2 - 3i), where i is its index in the unfiltered list. No other field changes. |
| ProjectCards.WithPositions | components/3d/ProjectCards.tsx:32-36 | The result has the same length as the input, and each entry is the placed record at that index. |
| ProjectCards.KeepShown | components/3d/ProjectCards.tsx:37 | The result keeps the input's order, every kept record passes the filter, and exactly as many are kept as pass. |
| ProjectCards.KeepShownAll | components/3d/ProjectCards.tsx:37 | The "all" filter keeps every record. |
| ProjectCards.FilteredProjects | components/3d/ProjectCards.tsx:31-38 | With "all", the cards are every project in order. Otherwise they are exactly the projects of that category, in order. Every card has a position. |
| ProjectCards.GeometryFor | components/3d/ProjectCards.tsx:41-61 | Only categories other than mobile-app, backend-api and open-source get a shape that is a box, and it is the 2 x 2.5 x 0.2 card. The three give a sphere, a cone and a cylinder. The sphere has as many height segments as width segments. Under performance mode the segment count is at most 16. |
| ProjectCards.GeometryForSpec | components/3d/ProjectCards.tsx:41-61 | web-development and any unknown category give the 2 x 2.5 x 0.2 box. The sphere has radius 1.2. The cone has radius 1 and height 2.5. The cylinder has radii 1 and 1 and height 2.5. Performance mode keeps the sizes and lowers the segments. The sphere's width and height segments go from 32 to 16. The cone's and cylinder's go from 8 to 6. |
| ProjectCards.CategoriesPickDistinctShapes | components/3d/ProjectCards.tsx:43-58 | The four stored categories give four different shapes. Only web-development gives a box. |
| ProjectCards.HoverTarget | components/3d/ProjectCards.tsx:203-213 | A hovered card targets scale 1.1 and opacity 1. Any other card targets scale 1 and opacity 0.9. |
| SceneControls.Clamp | components/3d/Scene.tsx:133-136 | `Math.max(lo, Math.min(hi, v))` lies in [lo, hi]. It is v inside the range and the nearer bound outside it. |
| SceneControls.OrbitControls.constructor | components/3d/Scene.tsx:98-115 | The controls start at distance 10, azimuth 0 and polar angle pi/2, not dragging, with the pointer at (0, 0), within the ranges. |
| SceneControls.OrbitControls.OnMouseDown | components/3d/Scene.tsx:120-123 | The handler starts dragging and records the pointer. The angles and the distance stay. |
| SceneControls.OrbitControls.OnMouseMove | components/3d/Scene.tsx:125-140 | While dragging, the azimuth drops by 0.01 dx, the polar angle becomes clamp(polar + 0.01 dy), and the pointer is recorded. Otherwise nothing changes. The ranges are kept. |
| SceneControls.OrbitControls.OnMouseUp | components/3d/Scene.tsx:142-144 | The handler only stops dragging. |
| SceneControls.OrbitControls.OnWheel | components/3d/Scene.tsx:146-156 | The handler changes only the distance, to clamp(distance + 0.01 deltaY, 3, 20). |
| SceneControls.Replay | components/3d/Scene.tsx:98-156 | After any series of events from the initial controls, the distance is in [3, 20] and the polar angle in [pi/6, 5pi/6]. |
| SkillChart.Categories | components/3d/SkillVisualization.tsx:247 | The result lists each skill's category, index by index. |
| SkillChart.Distinct | components/3d/SkillVisualization.tsx:247 | The distinct values contain no duplicate, and they are exactly the values of the input. |
| SkillChart.DistinctFirstSeenOrder | components/3d/SkillVisualization.tsx:247 | The distinct values come in the order of their first occurrence. |
| SkillChart.DistinctOccurrencesSum | components/3d/SkillVisualization.tsx:247-251 | The occurrence counts of the distinct values add up to the input length. |
| SkillChart.SkillsIn | components/3d/SkillVisualization.tsx:249 | The order-preserving selection holds exactly the skills of the category. Its length is that category's number of occurrences. |
| SkillChart.LevelSum | components/3d/SkillVisualization.tsx:250 | Definition: the sum of the levels. |
| SkillChart.LevelSumBounds | components/3d/SkillVisualization.tsx:250 | If every level is between lo and hi, the sum of n levels is between n lo and n hi. |
| SkillChart.Average | components/3d/SkillVisualization.tsx:250 | Definition: the sum divided by the group size, for a non-empty group. |
| SkillChart.AverageBetweenExtremes | components/3d/SkillVisualization.tsx:250 | The average level lies between the group's least and greatest level. |
| SkillChart.StatFor | components/3d/SkillVisualization.tsx:248-251 | The bar of a category that some skill has names that category. Its count is the number of skills in it, at least one, and its level is their average. |
| SkillChart.StatsFor | components/3d/SkillVisualization.tsx:248-252 | There is one bar per given category, in the given order. |
| SkillChart.CategoryData | components/3d/SkillVisualization.tsx:247-252 | There is one bar per distinct category, and each bar is that category's statistics. |
| SkillChart.CategoryDataDistinct | components/3d/SkillVisualization.tsx:247 | No category has two bars. |
| SkillChart.CategoryDataCoversSkills | components/3d/SkillVisualization.tsx:247-248 | Every skill's category has a bar. |
| SkillChart.CategoryDataOnlySkillCategories | components/3d/SkillVisualization.tsx:247-248 | Every bar's category belongs to some skill. |
| SkillChart.CategoryDataFirstSeenOrder | components/3d/SkillVisualization.tsx:247 | The bars follow the order of the categories' first appearance. |
| SkillChart.CategoryDataBars | components/3d/SkillVisualization.tsx:249-251 | Each bar's count is the number of skills of its category, at least one. Its level is their sum divided by the count, between their least and greatest level. |
| SkillChart.CategoryDataTotal | components/3d/SkillVisualization.tsx:248-251 | The bars' counts add up to the number of skills. |
| SkillChart.BarLabel | components/3d/SkillVisualization.tsx:326 | A non-empty category name is its own label. A missing or empty name becomes "other". |
| SkillChart.ParticleCount | components/3d/SkillVisualization.tsx:205 | The result is the floor of level / 10: n*10 <= level < n*10 + 10. |
| SkillChart.SpiralRadius | components/3d/SkillVisualization.tsx:363 | The radius is always 3, 4.5 or 6. |
| SkillChart.SpiralRadiusCycles | components/3d/SkillVisualization.tsx:363 | The radius repeats with period three and runs 3, 4.5, 6. |
| FloatingCode.CodeColor | components/3d/FloatingCodeElements.tsx:368-375 | The result is one of six colours. A declaration marker gives #ff6b6b whatever else is present. The result is #ffffff exactly when no marker is present. |
| FloatingCode.FirstFiring | components/3d/FloatingCodeElements.tsx:368-374 | The result is the first rule that fires, with no earlier rule firing, or the table's length when none fires. |
| FloatingCode.FirstFiringOfRules | components/3d/FloatingCodeElements.tsx:368-374 | The first rule to fire is the first marker group, in the order of the checks, that occurs in the line. The result is 5 when none occurs. |
| FloatingCode.CodeColorFollowsRules | components/3d/FloatingCodeElements.tsx:368-375 | The classifier equals the first-match reading of the ordered rule table. A line's colour identifies exactly which rule decided it. |
| FloatingCode.TerminalRowFor | components/3d/FloatingCodeElements.tsx:336-344 | A line is a prompt iff it starts with "$", and its shown command is the text from index 2 on. Any other line is shown whole. |
| FloatingCode.TerminalRowRoundTrip | components/3d/FloatingCodeElements.tsx:336-344 | Output lines and "$ " prompts read back from their rows. "$ls" shows the command "s". |
| FloatingCode.LineLabel | components/3d/FloatingCodeElements.tsx:226 | Line numbers 1-9 are a space and the digit. Longer numbers are their plain digits. |
| FloatingCode.LineLabelReadsBack | components/3d/FloatingCodeElements.tsx:226 | Stripping the padding leaves only digits, which read back as lineIndex + 1. |
| FloatingCode.CodeParticleCount | components/3d/FloatingCodeElements.tsx:248 | A window has 20 particles in performance mode and 50 otherwise. |

## Left out

- Reading and writing data/portfolio.json, JSON parsing and serialisation, console logging and the "failed to load/save" errors (lib/cms.ts:8-25): the document is in-memory state and these are file I/O.
- Id and time generation (`Date.now`, `Math.random`, `new Date().toISOString()`): passed as parameters; ids are not unique in the source, so uniqueness is not claimed (CreateThenLookup assumes it).
- Cms.PortfolioDocument.GetProjects: the source's `sort` also reorders the loaded array in place, but that array is discarded without being saved, so the stored table is modelled as unchanged.
- createdAt as text: the stored ISO string and its `Date` parsing (including an unparsable string giving NaN) are replaced by the millisecond integer.
- Concurrency: concurrent requests can interleave the whole-document read-modify-write cycles and lose updates; the model is sequential.
- The HTTP route handlers (app/api/projects/route.ts and app/api/projects/[id]/route.ts): status codes and error wrapping around the modelled operations; only the item path's id (`RouteId`) is modelled.
- ProjectForm.RouteId, ProjectForm.SaveRouting: URL parsing by `fetch` and the route's percent-decoding of the `[id]` segment are not modelled. The id is read as the raw path text. For an id with '?', '#' or '%', or for "." and "..", the route reads a different id or the collection path. The read-back is exact for URL-safe ids, and GeneratedIdIsUrlSafe shows that every id generated from a base-36 random text is URL-safe.
- ProjectForm: the remaining field setters of the form inputs, `isSubmitting`, the `fetch` itself, `onClose` and the failure `alert`; the patch a PUT carries cannot unset `liveUrl`/`githubUrl`, since the form always sends them.
- Category strings outside the four known values cannot be stored in a `Project` (the document is not validated in the source); `GeometryFor` takes a raw string so its default branch is still modelled.
- Strings: a Dafny `char` is one Unicode code point, while `substring` and `padStart` count UTF-16 code units; the two differ only on characters outside the Basic Multilingual Plane. Every string these operations see in the source is ASCII.
- SkillChart: the built-in `skillsData` table of SkillVisualization.tsx is not reproduced; the chart lemmas hold for every list of skills, that one included.
- Numbers: JavaScript doubles are modelled as exact reals, so the rounding of the sums, divisions and clamps is not modelled; `Math.PI` is the 16-digit literal.
- SceneControls: `setMousePosition` on mouse move (React state for rendering), the camera placement from spherical coordinates, and the unused control settings (`enablePan`, `autoRotate`, `target`).
- All Three.js and canvas work: geometry and material construction, shaders, animation frames, easing (`lerp`), raycasting, text drawing and disposal, and the files that only render (particle systems, holographic display, floating text, loading fallback).
- The React pages and dialogs (app pages, AdminLayout, Navigation3D, ProjectModal, About/Contact/ProjectsDialog): UI without state logic of the modelled kind; ProjectsDialog reads store fields that lib/store.ts does not define.
