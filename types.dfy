/**
 * The records of the portfolio document and the category constants
 * (lib/types.ts, lib/constants.ts).
 */
module PortfolioTypes {
  import opened Wrappers

  /** The four project categories a project may belong to. */
  datatype Category = WebDevelopment | MobileApp | BackendApi | OpenSource

  /** The string stored in the document for a category. */
  function CategoryName(c: Category): string {
    match c
    case WebDevelopment => "web-development"
    case MobileApp => "mobile-app"
    case BackendApi => "backend-api"
    case OpenSource => "open-source"
  }

  /** `categoryColors`: the display colour of each category. */
  function CategoryColor(c: Category): string {
    match c
    case WebDevelopment => "#3B82F6"
    case MobileApp => "#10B981"
    case BackendApi => "#EF4444"
    case OpenSource => "#8B5CF6"
  }

  /** `categoryLabels`: the human-readable name of each category. */
  function CategoryLabel(c: Category): string {
    match c
    case WebDevelopment => "Web Development"
    case MobileApp => "Mobile App"
    case BackendApi => "Backend/API"
    case OpenSource => "Open Source"
  }

  /** The category filter value that shows every category. */
  const AllCategories: string := "all"

  datatype Position = Position(x: real, y: real, z: real)

  /**
   * A project record. `createdAt` is the creation instant in milliseconds
   * since the epoch, which is what the newest-first ordering compares.
   * `position` is declared mandatory, but records come from an unvalidated
   * document and the card layout supplies a default when it is missing, so
   * it is optional here.
   */
  datatype Project = Project(
    id: string,
    title: string,
    description: string,
    longDescription: string,
    technologies: seq<string>,
    category: Category,
    image: string,
    liveUrl: Option<string>,
    githubUrl: Option<string>,
    featured: bool,
    position: Option<Position>,
    color: string,
    createdAt: int)

  /** `Omit<Project, 'id' | 'createdAt'>`: what a caller supplies to create a project. */
  datatype ProjectInput = ProjectInput(
    title: string,
    description: string,
    longDescription: string,
    technologies: seq<string>,
    category: Category,
    image: string,
    liveUrl: Option<string>,
    githubUrl: Option<string>,
    featured: bool,
    position: Option<Position>,
    color: string)

  /** `Partial<Project>`: every key may be absent. */
  datatype ProjectPatch = ProjectPatch(
    id: Option<string>,
    title: Option<string>,
    description: Option<string>,
    longDescription: Option<string>,
    technologies: Option<seq<string>>,
    category: Option<Category>,
    image: Option<string>,
    liveUrl: Option<string>,
    githubUrl: Option<string>,
    featured: Option<bool>,
    position: Option<Position>,
    color: Option<string>,
    createdAt: Option<int>)

  datatype Skill = Skill(name: string, level: real, color: string)

  datatype About = About(bio: string, skills: seq<Skill>, experience: string)

  datatype Social = Social(github: Option<string>, linkedin: Option<string>, twitter: Option<string>)

  datatype Settings = Settings(name: string, title: string, email: string, social: Social)
}
