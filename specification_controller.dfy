/**
 * The specification handlers: `generate` validates the request, checks that
 * the project belongs to the caller, asks the AI service to structure the
 * text and writes the returned tree as one Specification row with nested
 * Section and Item rows, each given `position` = its index; `getById` and
 * `getAll` read specifications back with sections and items ordered by
 * position.
 *
 * The database is a class holding the specification rows in creation order
 * and the project-ownership table. The tree returned by `JSON.parse` is
 * taken unchecked: a missing `sections` or `items` list makes the nested
 * `map` throw, which the handler reports as a server error.
 */
module SpecificationController {
  import opened Wrappers
  import opened Text
  import AiService

  // ---------------------------------------------------------------------
  // The parsed AI reply, as far as the handler reads it
  // ---------------------------------------------------------------------

  datatype RawItem = RawItem(content: string, timeEstimate: Option<nat>)
  datatype RawSection = RawSection(title: string, items: Option<seq<RawItem>>)
  datatype RawTree = RawTree(title: Option<string>, sections: Option<seq<RawSection>>)

  // ---------------------------------------------------------------------
  // Stored rows
  // ---------------------------------------------------------------------

  /** An Item row; `timeEstimate` None is the database null. */
  datatype ItemRow = ItemRow(content: string, timeEstimate: Option<nat>, position: nat)
  datatype SectionRow = SectionRow(title: string, position: nat, items: seq<ItemRow>)
  datatype Specification =
    Specification(id: nat, userId: int, projectId: int, title: string, sections: seq<SectionRow>)

  /** A Project row, as far as these handlers read it: its owner and name. */
  datatype Project = Project(userId: int, name: string)

  /** An entry of `getAll`'s list: the specification with its project's
      `name` (`project: { select: { name: true } }`). */
  datatype Listed = Listed(spec: Specification, projectName: string)

  /** `prisma.project.findFirst({ where: { id, userId } })` finds a row. */
  predicate Owns(projects: map<int, Project>, userId: int, projectId: int) {
    projectId in projects && projects[projectId].userId == userId
  }

  /** Every section's position is its index among its siblings, and so is
      every item's: the positions are exactly 0..n-1 in order. */
  predicate DensePositions(sections: seq<SectionRow>) {
    forall i :: 0 <= i < |sections| ==>
      sections[i].position == i
      && forall j :: 0 <= j < |sections[i].items| ==> sections[i].items[j].position == j
  }

  /** What an `orderBy: {position: 'asc'}` read promises: sections, and the
      items within each section, in ascending position. */
  predicate SortedByPosition(sections: seq<SectionRow>) {
    (forall i, k :: 0 <= i < k < |sections| ==> sections[i].position < sections[k].position)
    && forall i :: 0 <= i < |sections| ==>
         forall j, k :: 0 <= j < k < |sections[i].items| ==>
           sections[i].items[j].position < sections[i].items[k].position
  }

  lemma DenseIsSorted(sections: seq<SectionRow>)
    requires DensePositions(sections)
    ensures SortedByPosition(sections)
  {
  }

  const UntitledTitle: string := "Без названия"

  /** `structured.title || 'Без названия'`. */
  function StoredTitle(title: Option<string>): (t: string)
    ensures title.Some? && title.value != [] ==> t == title.value
    ensures title.None? || title.value == [] ==> t == UntitledTitle
  {
    if title.Some? && title.value != [] then title.value else UntitledTitle
  }

  /** `item.timeEstimate || null`: zero and absent are both stored as null,
      any other estimate as itself. */
  function StoredEstimate(e: Option<nat>): (r: Option<nat>)
    ensures r.Some? <==> e.Some? && e.value != 0
    ensures r.Some? ==> r == e
  {
    if e.Some? && e.value != 0 then e else None
  }

  /** `section.items.map((item, iIndex) => ...)`. */
  function ItemRows(items: seq<RawItem>): seq<ItemRow> {
    seq(|items|, j requires 0 <= j < |items| =>
      ItemRow(items[j].content, StoredEstimate(items[j].timeEstimate), j))
  }

  predicate AllHaveItems(sections: seq<RawSection>) {
    forall i :: 0 <= i < |sections| ==> sections[i].items.Some?
  }

  /** `structured.sections.map((section, sIndex) => ...)`. */
  function SectionRows(sections: seq<RawSection>): seq<SectionRow>
    requires AllHaveItems(sections)
  {
    seq(|sections|, i requires 0 <= i < |sections| =>
      SectionRow(sections[i].title, i, ItemRows(sections[i].items.value)))
  }

  /** The rows written for a parsed tree, or None where the nested `map`
      throws because a `sections` or `items` list is missing. */
  function TreeRows(tree: RawTree): Option<seq<SectionRow>> {
    if tree.sections.Some? && AllHaveItems(tree.sections.value)
    then Some(SectionRows(tree.sections.value))
    else None
  }

  /** The rows written for a tree keep the tree's order and contents, with
      positions 0..n-1, and estimates normalised. */
  lemma TreeRowsFaithful(tree: RawTree)
    requires TreeRows(tree).Some?
    ensures var rows := TreeRows(tree).value;
      && DensePositions(rows)
      && |rows| == |tree.sections.value|
      && forall i :: 0 <= i < |rows| ==>
           && rows[i].title == tree.sections.value[i].title
           && |rows[i].items| == |tree.sections.value[i].items.value|
           && forall j :: 0 <= j < |rows[i].items| ==>
                && rows[i].items[j].content == tree.sections.value[i].items.value[j].content
                && rows[i].items[j].timeEstimate
                   == StoredEstimate(tree.sections.value[i].items.value[j].timeEstimate)
  {
  }

  /** `getAll`'s list: the user's specifications, newest first. */
  function NewestFirst(specs: seq<Specification>, userId: int): (r: seq<Specification>)
    ensures forall k :: 0 <= k < |r| ==> r[k] in specs && r[k].userId == userId
    ensures forall s :: s in specs && s.userId == userId ==> s in r
  {
    if specs == [] then []
    else
      var last := specs[|specs| - 1];
      var rest := NewestFirst(specs[..|specs| - 1], userId);
      assert forall s :: s in specs ==> s == last || s in specs[..|specs| - 1];
      (if last.userId == userId then [last] else []) + rest
  }

  predicate IdsDescending(r: seq<Specification>) {
    forall a, b :: 0 <= a < b < |r| ==> r[a].id > r[b].id
  }

  /** One specification in front of a descending list of older ones keeps
      it descending. */
  lemma ConsDescending(x: Specification, rest: seq<Specification>)
    requires IdsDescending(rest)
    requires forall k :: 0 <= k < |rest| ==> rest[k].id < x.id
    ensures IdsDescending([x] + rest)
  {
    var r := [x] + rest;
    forall a, b | 0 <= a < b < |r| ensures r[a].id > r[b].id {
      assert r[b] == rest[b - 1];
      if a > 0 {
        assert r[a] == rest[a - 1];
      }
    }
  }

  /** Within the list, later-created specifications come first (ids are
      handed out in creation order). */
  lemma {:induction false} NewestFirstOrder(specs: seq<Specification>, userId: int)
    requires forall i :: 0 <= i < |specs| ==> specs[i].id == i + 1
    ensures IdsDescending(NewestFirst(specs, userId))
    ensures forall k :: 0 <= k < |NewestFirst(specs, userId)| ==> NewestFirst(specs, userId)[k].id <= |specs|
  {
    if specs != [] {
      var init := specs[..|specs| - 1];
      var last := specs[|specs| - 1];
      assert forall i :: 0 <= i < |init| ==> init[i].id == i + 1;
      NewestFirstOrder(init, userId);
      var rest := NewestFirst(init, userId);
      if last.userId == userId {
        ConsDescending(last, rest);
        assert NewestFirst(specs, userId) == [last] + rest;
      } else {
        assert NewestFirst(specs, userId) == rest;
      }
    }
  }

  /** Under the store's invariant, the caller's list has dense positions
      and existing projects, and is newest first. */
  lemma NewestFirstListed(specs: seq<Specification>, projects: map<int, Project>, userId: int)
    requires forall i :: 0 <= i < |specs| ==>
               specs[i].id == i + 1 && DensePositions(specs[i].sections) && specs[i].projectId in projects
    ensures var found := NewestFirst(specs, userId);
      && IdsDescending(found)
      && forall k :: 0 <= k < |found| ==>
           found[k].projectId in projects && SortedByPosition(found[k].sections)
  {
    NewestFirstOrder(specs, userId);
    var found := NewestFirst(specs, userId);
    forall k | 0 <= k < |found|
      ensures found[k].projectId in projects && SortedByPosition(found[k].sections)
    {
      var i :| 0 <= i < |specs| && specs[i] == found[k];
      DenseIsSorted(found[k].sections);
    }
  }

  /** Pairs each specification with its project's name. */
  function WithProjectNames(found: seq<Specification>, projects: map<int, Project>): (r: seq<Listed>)
    requires forall k :: 0 <= k < |found| ==> found[k].projectId in projects
    ensures |r| == |found|
    ensures forall k :: 0 <= k < |r| ==> r[k].spec == found[k] && r[k].projectName == projects[found[k].projectId].name
  {
    seq(|found|, k requires 0 <= k < |found| => Listed(found[k], projects[found[k].projectId].name))
  }

  // ---------------------------------------------------------------------
  // The handler
  // ---------------------------------------------------------------------

  datatype GenerateReply =
    | Created(spec: Specification)  // 201
    | BadRequest(message: string)   // 400
    | NotFound(message: string)     // 404
    | ServerError(reason: Option<string>)  // 500; None: a message raised by the JavaScript runtime

  const EmptyTextMessage: string := "Текст не может быть пустым"
  const ProjectRequiredMessage: string := "projectId обязателен"
  const ProjectNotFoundMessage: string := "Проект не найден"

  /** The early returns of `generate`, in their order: blank text, then a
      missing (or zero) project id, then a project the caller does not own.
      None: the request goes on to the AI. */
  function Precheck(text: Option<string>, projectId: Option<int>, projects: map<int, Project>, userId: int)
    : (r: Option<GenerateReply>)
    ensures text.None? || IsBlank(text.value) ==> r == Some(BadRequest(EmptyTextMessage))
    ensures (text.Some? && !IsBlank(text.value) && (projectId.None? || projectId.value == 0))
              ==> r == Some(BadRequest(ProjectRequiredMessage))
    ensures r.None? <==>
              && text.Some? && !IsBlank(text.value)
              && projectId.Some? && projectId.value != 0
              && Owns(projects, userId, projectId.value)
    ensures (text.Some? && !IsBlank(text.value) && projectId.Some? && projectId.value != 0
             && !Owns(projects, userId, projectId.value))
              ==> r == Some(NotFound(ProjectNotFoundMessage))
    ensures r.Some? && r.value.NotFound? ==>
              text.Some? && !IsBlank(text.value) && projectId.Some? && projectId.value != 0
  {
    if text.None? || IsBlank(text.value) then Some(BadRequest(EmptyTextMessage))
    else if projectId.None? || projectId.value == 0 then Some(BadRequest(ProjectRequiredMessage))
    else if !Owns(projects, userId, projectId.value)
    then Some(NotFound(ProjectNotFoundMessage))
    else None
  }

  /** The write that follows a successful precheck, given the AI outcome:
      a failure is reported with its message and writes nothing; a tree the
      nested `map` cannot walk is a server error and writes nothing; any
      other tree becomes exactly one new specification, appended, owned by
      the caller and the project, with dense positions. */
  function Persist(specs: seq<Specification>, userId: int, projectId: int,
                   outcome: Result<RawTree, AiService.AiError>)
    : (r: (GenerateReply, seq<Specification>))
    ensures r.0.Created? <==> outcome.Success? && TreeRows(outcome.value).Some?
    ensures !r.0.Created? ==> r.1 == specs
    ensures outcome.Failure? ==> r.0 == ServerError(Some(AiService.Message(outcome.error)))
    ensures outcome.Success? && TreeRows(outcome.value).None? ==> r.0 == ServerError(None)
    ensures r.0.Created? ==>
              && r.1 == specs + [r.0.spec]
              && r.0.spec.id == |specs| + 1
              && r.0.spec.userId == userId
              && r.0.spec.projectId == projectId
              && r.0.spec.title == StoredTitle(outcome.value.title)
              && r.0.spec.sections == TreeRows(outcome.value).value
              && DensePositions(r.0.spec.sections)
  {
    match outcome
    case Failure(e) => (ServerError(Some(AiService.Message(e))), specs)
    case Success(tree) =>
      var rows := TreeRows(tree);
      if rows.None? then (ServerError(None), specs)
      else
        TreeRowsFaithful(tree);
        var spec := Specification(|specs| + 1, userId, projectId, StoredTitle(tree.title), rows.value);
        (Created(spec), specs + [spec])
  }

  /** With `structure` the AI service's call: when the Ollama exchange is
      aborted by the timer or the connection is refused, `generate` answers
      with the timeout or the server-down message and writes nothing. */
  lemma UnreachableAiWritesNothing(specs: seq<Specification>, userId: int, projectId: int, text: string,
                                   model: string, send: AiService.Request -> AiService.Transport,
                                   parse: string -> Option<RawTree>)
    ensures var outcome := send(AiService.Request(model, AiService.ComposePrompt(text), false));
      var r := Persist(specs, userId, projectId, AiService.Structured(text, model, send, parse));
      && (outcome.Aborted? ==> r == (ServerError(Some(AiService.Message(AiService.Timeout))), specs))
      && (outcome.ConnectionRefused? ==> r == (ServerError(Some(AiService.Message(AiService.BackendDown))), specs))
  {
    var outcome := send(AiService.Request(model, AiService.ComposePrompt(text), false));
    var structured: Result<RawTree, AiService.AiError> := AiService.Structured(text, model, send, parse);
    if outcome.Aborted? {
      assert structured == Failure(AiService.Timeout);
    } else if outcome.ConnectionRefused? {
      assert structured == Failure(AiService.BackendDown);
    }
  }

  /** The database as the handlers see it. */
  class SpecificationStore {
    /** Specification rows in creation order (creation order stands for
        `createdAt`); ids are assigned 1, 2, 3, ... */
    var specs: seq<Specification>
    /** Project rows by id; not changed by these handlers. */
    var projects: map<int, Project>

    /** Ids are 1..n in creation order, positions are dense, and every
        specification's project exists (the foreign key). */
    ghost predicate Valid()
      reads this
    {
      forall i :: 0 <= i < |specs| ==>
        specs[i].id == i + 1 && DensePositions(specs[i].sections) && specs[i].projectId in projects
    }

    constructor (projects: map<int, Project>)
      ensures Valid() && this.specs == [] && this.projects == projects
    {
      this.specs := [];
      this.projects := projects;
    }

    /** POST /api/specifications/generate. The AI is called only once the
        request has passed every check; a failed call, or a tree the nested
        `map` cannot walk, leaves the store unchanged; otherwise exactly one
        specification is appended, owned by the caller and the given project.
        `structure` is the AI service's `structureText`: the function
        `t => AiService.Structured(t, model, send, parse)` of the method
        `AiService.StructureText` (see `UnreachableAiWritesNothing`). */
    method Generate(
      userId: int, text: Option<string>, projectId: Option<int>,
      structure: string -> Result<RawTree, AiService.AiError>)
      returns (reply: GenerateReply, aiCalled: bool)
      requires Valid()
      modifies this
      ensures Valid() && projects == old(projects)
      ensures aiCalled <==> Precheck(text, projectId, projects, userId).None?
      ensures !aiCalled ==> reply == Precheck(text, projectId, projects, userId).value && specs == old(specs)
      ensures aiCalled ==>
        (reply, specs) == Persist(old(specs), userId, projectId.value, structure(text.value))
    {
      var early := Precheck(text, projectId, projects, userId);
      if early.Some? {
        return early.value, false;
      }
      aiCalled := true;
      var outcome := structure(text.value);
      var written := Persist(specs, userId, projectId.value, outcome);
      reply := written.0;
      specs := written.1;
      assert Valid() by {
        assert forall i :: 0 <= i < |old(specs)| ==> specs[i] == old(specs)[i];
      }
    }

    /** GET /api/specifications/:id: the caller's specification with that id,
        sections and items in ascending position, or None (404). */
    function GetById(userId: int, id: int): (r: Option<Specification>)
      reads this
      requires Valid()
      ensures r.Some? <==> exists i :: 0 <= i < |specs| && specs[i].id == id && specs[i].userId == userId
      ensures r.Some? ==> r.value in specs && r.value.id == id && r.value.userId == userId
                          && SortedByPosition(r.value.sections)
    {
      if 1 <= id <= |specs| && specs[id - 1].userId == userId then
        DenseIsSorted(specs[id - 1].sections);
        Some(specs[id - 1])
      else None
    }

    /** GET /api/specifications: the caller's specifications, newest first,
        each with sections and items in ascending position and with the name
        of its project. */
    function GetAll(userId: int): (r: seq<Listed>)
      reads this
      requires Valid()
      ensures forall k :: 0 <= k < |r| ==>
                && r[k].spec in specs && r[k].spec.userId == userId
                && r[k].spec.projectId in projects
                && r[k].projectName == projects[r[k].spec.projectId].name
                && SortedByPosition(r[k].spec.sections)
      ensures forall s :: s in specs && s.userId == userId ==> exists k :: 0 <= k < |r| && r[k].spec == s
      ensures forall a, b :: 0 <= a < b < |r| ==> r[a].spec.id > r[b].spec.id
    {
      NewestFirstListed(specs, projects, userId);
      var found := NewestFirst(specs, userId);
      var r := WithProjectNames(found, projects);
      forall s | s in specs && s.userId == userId ensures exists k :: 0 <= k < |r| && r[k].spec == s {
        var k :| 0 <= k < |found| && found[k] == s;
        assert r[k].spec == s;
      }
      r
    }
  }
}
