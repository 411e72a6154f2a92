/**
 * The project cards of the 3D scene (components/3d/ProjectCards.tsx): which
 * projects get a card and where, the shape of a card, and the scale and
 * opacity a card eases towards.
 */
module ProjectCards {
  import opened Wrappers
  import opened PortfolioTypes
  import opened Sequences

  /** Where the card of the `i`-th project goes when the record has no position. */
  function DefaultPosition(i: nat): Position {
    Position(0.0, 0.0, -2.0 + (i as real) * -3.0)
  }

  /** The `i`-th project with its position filled in. */
  function Placed(projects: seq<Project>, i: nat): (r: Project)
    requires i < |projects|
    ensures r.position.Some?
    ensures projects[i].position.Some? ==> r == projects[i]
    ensures projects[i].position.None? ==> r.position == Some(DefaultPosition(i))
    ensures r.(position := projects[i].position) == projects[i]
  {
    projects[i].(position := Some(projects[i].position.GetOr(DefaultPosition(i))))
  }

  /** `projects.map((project, index) => ({ ...project, position: project.position || default }))`. */
  function WithPositions(projects: seq<Project>): (r: seq<Project>)
    ensures |r| == |projects|
    ensures forall i :: 0 <= i < |r| ==> r[i] == Placed(projects, i)
  {
    seq(|projects|, i requires 0 <= i < |projects| => Placed(projects, i))
  }

  predicate Shown(filter: string, p: Project) {
    filter == AllCategories || CategoryName(p.category) == filter
  }

  /** How many of `s` pass the filter. */
  function CountShown(s: seq<Project>, filter: string): nat {
    if s == [] then 0 else (if Shown(filter, s[0]) then 1 else 0) + CountShown(s[1..], filter)
  }

  /**
   * `.filter(project => filter === "all" || project.category === filter)`:
   * an order-preserving selection of `s` that keeps exactly the shown records
   * (a subsequence made of shown records that is as long as the number of
   * shown records must contain every one of them).
   */
  function KeepShown(s: seq<Project>, filter: string): (r: seq<Project>)
    ensures IsSubsequence(r, s)
    ensures forall k :: 0 <= k < |r| ==> Shown(filter, r[k])
    ensures |r| == CountShown(s, filter)
  {
    if s == [] then []
    else
      var rest := KeepShown(s[1..], filter);
      if Shown(filter, s[0]) then
        assert ([s[0]] + rest)[1..] == rest;
        [s[0]] + rest
      else
        assert rest == [] || rest[0] != s[0];
        rest
  }

  lemma {:induction false} CountShownAll(s: seq<Project>)
    ensures CountShown(s, AllCategories) == |s|
  {
    if s != [] {
      CountShownAll(s[1..]);
    }
  }

  lemma {:induction false} KeepShownAll(s: seq<Project>)
    ensures KeepShown(s, AllCategories) == s
  {
    if s != [] {
      KeepShownAll(s[1..]);
    }
  }

  /** Filling in positions does not change which records a filter shows. */
  lemma {:induction false} CountShownIgnoresPosition(s: seq<Project>, t: seq<Project>, filter: string)
    requires |s| == |t|
    requires forall i :: 0 <= i < |s| ==> s[i].category == t[i].category
    ensures CountShown(s, filter) == CountShown(t, filter)
  {
    if s != [] {
      CountShownIgnoresPosition(s[1..], t[1..], filter);
    }
  }

  /**
   * The `filteredProjects` memo. With the "all" filter every project gets a
   * card, in stored order. With another filter the cards are exactly the
   * projects of that category, in stored order. Either way each card carries
   * the record with only its position filled in, from the project's index in
   * the unfiltered list.
   */
  function FilteredProjects(projects: seq<Project>, filter: string): (r: seq<Project>)
    ensures filter == AllCategories ==> r == WithPositions(projects) && |r| == |projects|
    ensures IsSubsequence(r, WithPositions(projects))
    ensures forall k :: 0 <= k < |r| ==> filter == AllCategories || CategoryName(r[k].category) == filter
    ensures |r| == CountShown(projects, filter)
    ensures forall k :: 0 <= k < |r| ==> r[k].position.Some?
  {
    var placed := WithPositions(projects);
    var r := KeepShown(placed, filter);
    CountShownIgnoresPosition(placed, projects, filter);
    SubsequenceInBounds(r, placed);
    assert filter == AllCategories ==> r == placed by {
      if filter == AllCategories {
        KeepShownAll(placed);
      }
    }
    assert forall k :: 0 <= k < |r| ==> r[k].position.Some? by {
      forall k | 0 <= k < |r| ensures r[k].position.Some? {
        assert r[k] in placed;
      }
    }
    r
  }

  // ---------------------------------------------------------------------
  // Card shapes
  // ---------------------------------------------------------------------

  /** The geometry of a card, with the constructor arguments the scene passes. */
  datatype Geometry =
    | Box(width: real, height: real, depth: real)
    | Sphere(radius: real, widthSegments: nat, heightSegments: nat)
    | Cone(radius: real, height: real, radialSegments: nat)
    | Cylinder(radiusTop: real, radiusBottom: real, height: real, radialSegments: nat)

  const CardBox := Box(2.0, 2.5, 0.2)

  /** `createGeometryByCategory(category)`; an unknown category gets the box. */
  function GeometryFor(category: string, performanceMode: bool): (r: Geometry)
    ensures r.Box? <==> category !in {"mobile-app", "backend-api", "open-source"}
    ensures r.Box? ==> r == CardBox
    ensures category == "mobile-app" ==> r.Sphere?
    ensures category == "backend-api" ==> r.Cone?
    ensures category == "open-source" ==> r.Cylinder?
    ensures r.Sphere? ==> r.heightSegments == r.widthSegments
    ensures performanceMode ==> Segments(r) <= 16
  {
    if category == "web-development" then CardBox
    else if category == "mobile-app" then
      Sphere(1.2, if performanceMode then 16 else 32, if performanceMode then 16 else 32)
    else if category == "backend-api" then Cone(1.0, 2.5, if performanceMode then 6 else 8)
    else if category == "open-source" then Cylinder(1.0, 1.0, 2.5, if performanceMode then 6 else 8)
    else CardBox
  }

  /** The number of segments around a shape; a box has none. */
  function Segments(g: Geometry): nat {
    match g
    case Box(_, _, _) => 0
    case Sphere(_, w, _) => w
    case Cone(_, _, n) => n
    case Cylinder(_, _, _, n) => n
  }

  /** The shape with its segment counts left out: the size of the card. */
  function Dimensions(g: Geometry): Geometry {
    match g
    case Box(_, _, _) => g
    case Sphere(r, _, _) => Sphere(r, 0, 0)
    case Cone(r, h, _) => Cone(r, h, 0)
    case Cylinder(a, b, h, _) => Cylinder(a, b, h, 0)
  }

  /**
   * Each category has its own shape and web development and every unknown
   * category share the box; the sphere has radius 1.2, the cone radius 1 and
   * height 2.5, the cylinder radii 1 and height 2.5. Performance mode keeps
   * every card's size, halves both of the sphere's segment counts and trims
   * the cone's and cylinder's from 8 to 6.
   */
  lemma GeometryForSpec(category: string)
    ensures category !in {"mobile-app", "backend-api", "open-source"} ==>
              GeometryFor(category, false) == CardBox && GeometryFor(category, true) == CardBox
    ensures Dimensions(GeometryFor(category, true)) == Dimensions(GeometryFor(category, false))
    ensures category == "mobile-app" ==> Dimensions(GeometryFor(category, false)) == Sphere(1.2, 0, 0)
    ensures category == "backend-api" ==> Dimensions(GeometryFor(category, false)) == Cone(1.0, 2.5, 0)
    ensures category == "open-source" ==> Dimensions(GeometryFor(category, false)) == Cylinder(1.0, 1.0, 2.5, 0)
    ensures category == "mobile-app" ==>
              Segments(GeometryFor(category, true)) == 16 && Segments(GeometryFor(category, false)) == 32
    ensures category == "mobile-app" ==>
              GeometryFor(category, true).heightSegments == 16 && GeometryFor(category, false).heightSegments == 32
    ensures category in {"backend-api", "open-source"} ==>
              Segments(GeometryFor(category, true)) == 6 && Segments(GeometryFor(category, false)) == 8
    ensures Segments(GeometryFor(category, true)) <= Segments(GeometryFor(category, false))
  {
  }

  /** The stored category names pick four distinct shapes. */
  lemma CategoriesPickDistinctShapes(a: Category, b: Category, performanceMode: bool)
    ensures GeometryFor(CategoryName(a), performanceMode).Box? <==> a == WebDevelopment
    ensures a != b ==> GeometryFor(CategoryName(a), performanceMode) != GeometryFor(CategoryName(b), performanceMode)
  {
  }

  // ---------------------------------------------------------------------
  // Hover
  // ---------------------------------------------------------------------

  datatype CardTarget = CardTarget(scale: real, opacity: real)

  /** The scale and opacity a card eases towards, depending on whether it is hovered. */
  function HoverTarget(isHovered: bool): (r: CardTarget)
    ensures isHovered ==> r == CardTarget(1.1, 1.0)
    ensures !isHovered ==> r == CardTarget(1.0, 0.9)
  {
    CardTarget(if isHovered then 1.1 else 1.0, if isHovered then 1.0 else 0.9)
  }
}
