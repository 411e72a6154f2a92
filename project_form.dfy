/**
 * The admin project editor (components/admin/ProjectForm.tsx): its form
 * state, the technology-list editing, the prefill from an existing project,
 * and the request that saving the form sends.
 */
module ProjectForm {
  import opened Wrappers
  import opened PortfolioTypes
  import opened Sequences
  import Text
  import Cms

  /** The editor's form state; the URL fields are plain strings, empty when unset. */
  datatype FormData = FormData(
    title: string,
    description: string,
    longDescription: string,
    technologies: seq<string>,
    category: Category,
    image: string,
    liveUrl: string,
    githubUrl: string,
    featured: bool,
    position: Option<Position>)

  const InitialForm := FormData("", "", "", [], WebDevelopment, "", "", "", false,
                                Some(Position(0.0, 0.0, 0.0)))

  /** The form filled in from an existing project; a missing URL becomes "". */
  function PrefilledFrom(p: Project): (r: FormData)
    ensures r.liveUrl == p.liveUrl.GetOr("") && r.githubUrl == p.githubUrl.GetOr("")
    ensures r.title == p.title && r.technologies == p.technologies && r.category == p.category
    ensures r.position == p.position && r.featured == p.featured
    ensures r.description == p.description && r.longDescription == p.longDescription && r.image == p.image
  {
    FormData(p.title, p.description, p.longDescription, p.technologies, p.category, p.image,
             p.liveUrl.GetOr(""), p.githubUrl.GetOr(""), p.featured, p.position)
  }

  // ---------------------------------------------------------------------
  // Technology list
  // ---------------------------------------------------------------------

  /** What `addTechnology` appends for the typed `input`, if anything. */
  function AcceptedTechnology(techs: seq<string>, input: string): (r: Option<string>)
    ensures r.Some? ==> r.value != [] && r.value !in techs
    ensures r.Some? ==> !Text.IsWhitespace(r.value[0]) && !Text.IsWhitespace(r.value[|r.value| - 1])
    ensures r.None? <==> Text.Trim(input) == [] || Text.Trim(input) in techs
    ensures r.Some? ==> r.value == Text.Trim(input)
  {
    var t := Text.Trim(input);
    if t != [] && t !in techs then Some(t) else None
  }

  /**
   * `techs.filter(t => t !== tech)`: every copy of `tech` is gone and the
   * other entries stay, in their order.
   */
  function WithoutTechnology(techs: seq<string>, tech: string): (r: seq<string>)
    ensures tech !in r
    ensures IsSubsequence(r, techs)
    ensures |r| == |techs| - multiset(techs)[tech]
  {
    if techs == [] then []
    else
      var rest := WithoutTechnology(techs[1..], tech);
      assert techs == [techs[0]] + techs[1..];
      if techs[0] == tech then
        assert IsSubsequence(rest, techs) by {
          assert rest == [] || rest[0] != techs[0];
        }
        rest
      else
        assert ([techs[0]] + rest)[1..] == rest;
        [techs[0]] + rest
  }

  /** One edit of the technology list, as the form's buttons issue them. */
  datatype TechEdit = Add(input: string) | Remove(tech: string)

  function ApplyTechEdit(techs: seq<string>, e: TechEdit): seq<string> {
    match e
    case Add(input) =>
      (match AcceptedTechnology(techs, input)
       case Some(t) => techs + [t]
       case None => techs)
    case Remove(tech) => WithoutTechnology(techs, tech)
  }

  function ApplyTechEdits(techs: seq<string>, es: seq<TechEdit>): seq<string>
    decreases |es|
  {
    if es == [] then techs else ApplyTechEdits(ApplyTechEdit(techs, es[0]), es[1..])
  }

  lemma TechEditKeepsNoDuplicates(techs: seq<string>, e: TechEdit)
    requires NoDuplicates(techs)
    ensures NoDuplicates(ApplyTechEdit(techs, e))
  {
    match e
    case Add(input) =>
    case Remove(tech) =>
      SubsequenceKeepsNoDuplicates(WithoutTechnology(techs, tech), techs);
  }

  /** Adding and removing never introduce a duplicate entry. */
  lemma {:induction false} TechEditsKeepNoDuplicates(techs: seq<string>, es: seq<TechEdit>)
    requires NoDuplicates(techs)
    ensures NoDuplicates(ApplyTechEdits(techs, es))
    decreases |es|
  {
    if es != [] {
      TechEditKeepsNoDuplicates(techs, es[0]);
      TechEditsKeepNoDuplicates(ApplyTechEdit(techs, es[0]), es[1..]);
    }
  }

  /** A new form's list, edited only through the buttons, never holds an entry twice. */
  lemma EditsFromNewFormHaveNoDuplicates(es: seq<TechEdit>)
    ensures NoDuplicates(ApplyTechEdits(InitialForm.technologies, es))
  {
    TechEditsKeepNoDuplicates(InitialForm.technologies, es);
  }

  // ---------------------------------------------------------------------
  // The editor's component state
  // ---------------------------------------------------------------------

  class ProjectFormState {
    var formData: FormData
    var newTech: string

    /** A fresh editor: the empty form and an empty technology input. */
    constructor ()
      ensures formData == InitialForm && newTech == ""
    {
      formData := InitialForm;
      newTech := "";
    }

    /** The effect run when the edited project is given: the form takes its fields. */
    method Prefill(project: Option<Project>)
      modifies this
      ensures project.Some? ==> formData == PrefilledFrom(project.value)
      ensures project.None? ==> formData == old(formData)
      ensures newTech == old(newTech)
    {
      if project.Some? {
        formData := PrefilledFrom(project.value);
      }
    }

    /** Typing into the technology input. */
    method SetNewTech(text: string)
      modifies this
      ensures newTech == text && formData == old(formData)
    {
      newTech := text;
    }

    /**
     * `addTechnology`: a non-blank trimmed input not yet listed is appended and
     * the input cleared; otherwise nothing changes.
     */
    method AddTechnology()
      modifies this
      ensures var t := Text.Trim(old(newTech));
              if t != [] && t !in old(formData).technologies then
                formData == old(formData).(technologies := old(formData).technologies + [t])
                && newTech == ""
              else
                formData == old(formData) && newTech == old(newTech)
      ensures formData.technologies == ApplyTechEdit(old(formData).technologies, Add(old(newTech)))
    {
      var accepted := AcceptedTechnology(formData.technologies, newTech);
      if accepted.Some? {
        formData := formData.(technologies := formData.technologies + [accepted.value]);
        newTech := "";
      }
    }

    /** `removeTechnology(tech)`: drops every copy of `tech` from the list. */
    method RemoveTechnology(tech: string)
      modifies this
      ensures formData == old(formData).(technologies := WithoutTechnology(old(formData).technologies, tech))
      ensures formData.technologies == ApplyTechEdit(old(formData).technologies, Remove(tech))
      ensures newTech == old(newTech)
    {
      formData := formData.(technologies := WithoutTechnology(formData.technologies, tech));
    }
  }

  // ---------------------------------------------------------------------
  // Saving
  // ---------------------------------------------------------------------

  datatype HttpMethod = Post | Put

  datatype SaveRequest = SaveRequest(verb: HttpMethod, url: string, payload: ProjectInput)

  const CollectionUrl := "/api/projects"
  const ItemUrlPrefix := "/api/projects/"

  /** `{ ...formData, color: categoryColors[formData.category] }`. */
  function Payload(form: FormData): (r: ProjectInput)
    ensures r.color == CategoryColor(form.category)
    ensures r.liveUrl == Some(form.liveUrl) && r.githubUrl == Some(form.githubUrl)
    ensures r.title == form.title && r.technologies == form.technologies && r.category == form.category
    ensures r.position == form.position && r.featured == form.featured
    ensures r.description == form.description && r.longDescription == form.longDescription && r.image == form.image
  {
    ProjectInput(form.title, form.description, form.longDescription, form.technologies,
                 form.category, form.image, Some(form.liveUrl), Some(form.githubUrl),
                 form.featured, form.position, CategoryColor(form.category))
  }

  /** `handleSubmit`: PUT to the project's own URL when editing, POST to the collection otherwise. */
  function SaveRequestFor(project: Option<Project>, form: FormData): (r: SaveRequest)
    ensures r.payload == Payload(form)
    ensures r.verb == Put <==> project.Some?
    ensures project.Some? ==> r.url == ItemUrlPrefix + project.value.id
    ensures project.None? ==> r.url == CollectionUrl
  {
    if project.Some? then SaveRequest(Put, ItemUrlPrefix + project.value.id, Payload(form))
    else SaveRequest(Post, CollectionUrl, Payload(form))
  }

  /** The id the `[id]` route reads from a request path, if the path is an item path. */
  function RouteId(url: string): (r: Option<string>)
    ensures r.Some? ==> url == ItemUrlPrefix + r.value && r.value != [] && '/' !in r.value
    ensures Text.StartsWith(url, ItemUrlPrefix) && |url| > |ItemUrlPrefix| && '/' !in url[|ItemUrlPrefix|..] ==> r.Some?
  {
    if Text.StartsWith(url, ItemUrlPrefix) && |url| > |ItemUrlPrefix| && '/' !in url[|ItemUrlPrefix|..]
    then Some(url[|ItemUrlPrefix|..])
    else None
  }

  /**
   * The request body as the PUT route reads it: every form field is present,
   * `id` and `createdAt` are not, and a missing position is dropped by the
   * JSON encoding.
   */
  function PayloadPatch(input: ProjectInput): (r: ProjectPatch)
    ensures r.id.None? && r.createdAt.None?
    ensures r.liveUrl == input.liveUrl && r.githubUrl == input.githubUrl && r.position == input.position
    ensures r.title == Some(input.title) && r.technologies == Some(input.technologies)
    ensures r.category == Some(input.category) && r.color == Some(input.color)
    ensures r.description == Some(input.description) && r.longDescription == Some(input.longDescription)
    ensures r.image == Some(input.image) && r.featured == Some(input.featured)
  {
    ProjectPatch(None, Some(input.title), Some(input.description), Some(input.longDescription),
                 Some(input.technologies), Some(input.category), Some(input.image),
                 input.liveUrl, input.githubUrl, Some(input.featured), input.position,
                 Some(input.color), None)
  }

  /**
   * Saving a new project posts to the collection; saving an edited project
   * puts to the item route of exactly that project's id. The body always
   * carries the colour of the form's category.
   */
  lemma SaveRouting(project: Option<Project>, form: FormData)
    ensures var r := SaveRequestFor(project, form);
            r.payload == Payload(form) && r.payload.color == CategoryColor(form.category)
    ensures project.None? ==> SaveRequestFor(project, form).verb == Post
                              && RouteId(SaveRequestFor(project, form).url) == None
    ensures project.Some? ==> SaveRequestFor(project, form).verb == Put
    ensures project.Some? && project.value.id != [] && '/' !in project.value.id ==>
              RouteId(SaveRequestFor(project, form).url) == Some(project.value.id)
  {
    var r := SaveRequestFor(project, form);
    if project.Some? {
      assert r.url[|ItemUrlPrefix|..] == project.value.id;
      assert r.url[..|ItemUrlPrefix|] == ItemUrlPrefix;
    } else {
      assert |r.url| < |ItemUrlPrefix|;
    }
  }

  /** A character URL parsing passes through unchanged (section 2.3 of RFC 3986). */
  predicate Unreserved(c: char) {
    'a' <= c <= 'z' || 'A' <= c <= 'Z' || '0' <= c <= '9' || c == '-' || c == '.' || c == '_' || c == '~'
  }

  /**
   * An id that reaches the `[id]` route as written: it has no query, fragment
   * or percent sign for the URL parser to act on, and it is not a dot segment.
   */
  predicate UrlSafeId(id: string) {
    id != [] && id != "." && id != ".." && forall i :: 0 <= i < |id| ==> Unreserved(id[i])
  }

  /**
   * The ids `generateId` builds from a random text of unreserved characters
   * (`Math.random().toString(36)` gives digits, lower-case letters and '.')
   * are URL-safe, so the edit route reads every such id back unchanged.
   */
  lemma GeneratedIdIsUrlSafe(clock: nat, randomText: string)
    requires forall i :: 0 <= i < |randomText| ==> Unreserved(randomText[i])
    ensures UrlSafeId(Cms.GenerateId(clock, randomText))
    ensures RouteId(ItemUrlPrefix + Cms.GenerateId(clock, randomText)) == Some(Cms.GenerateId(clock, randomText))
  {
    var id := Cms.GenerateId(clock, randomText);
    var digits := Text.NatToString(clock);
    var tail := Text.Substr(randomText, 2, 9);
    var k :| Text.OccursAt(randomText, tail, k);
    assert id == "project-" + digits + "-" + tail;
    forall i | 0 <= i < |id| ensures Unreserved(id[i]) {
      if i < 8 {
        assert id[i] == "project-"[i];
      } else if i < 8 + |digits| {
        assert id[i] == digits[i - 8];
      } else if i > 8 + |digits| {
        assert id[i] == tail[i - 9 - |digits|] == randomText[k + i - 9 - |digits|];
      }
    }
    assert |id| > 2;
    var url := ItemUrlPrefix + id;
    assert url[|ItemUrlPrefix|..] == id;
    assert url[..|ItemUrlPrefix|] == ItemUrlPrefix;
  }

  /**
   * What an edit save does to the stored record: the record keeps its id and
   * creation time and takes every form field and the category colour; a form
   * without a position keeps the stored one.
   */
  lemma EditSaveEffect(p: Project, form: FormData)
    ensures var q := Cms.Merge(p, PayloadPatch(Payload(form)));
            q.id == p.id && q.createdAt == p.createdAt
            && Cms.InputOf(q) == Payload(form).(position := if form.position.Some? then form.position else p.position)
  {
  }

  /**
   * Opening a project in the editor and saving it untouched rewrites the
   * stored record to itself, provided it already had both URLs and the
   * colour of its category.
   */
  lemma UntouchedEditRestoresProject(p: Project)
    requires p.liveUrl.Some? && p.githubUrl.Some? && p.color == CategoryColor(p.category)
    ensures Cms.Merge(p, PayloadPatch(Payload(PrefilledFrom(p)))) == p
  {
  }

  /**
   * Opening a project in the editor and saving it untouched sends the
   * project's own fields, with a missing URL as "" and the colour recomputed
   * from the category.
   */
  lemma PrefillThenPayload(p: Project)
    ensures Payload(PrefilledFrom(p)) == Cms.InputOf(p).(liveUrl := Some(p.liveUrl.GetOr("")),
                                                          githubUrl := Some(p.githubUrl.GetOr("")),
                                                          color := CategoryColor(p.category))
  {
  }
}
