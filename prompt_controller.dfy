/**
 * The prompt library: each user keeps a table of named prompts, at most one
 * of which is that user's default. `create` and `update` trim the text
 * fields, `update` keeps an existing value where the new one is missing or
 * blank, and both clear every default of the user (an `updateMany`) before
 * they write a row flagged as default; `update` and `remove` answer 404 for a
 * prompt that is missing or belongs to someone else.
 *
 * The database table is a class holding the rows and the next
 * auto-increment id. The request body fields are `Option`s: None is a field
 * that is absent (`undefined`).
 */
module PromptController {
  import opened Wrappers
  import opened Text

  datatype Prompt = Prompt(id: nat, userId: int, title: string, content: string, isDefault: bool)

  datatype PromptReply =
    | Created(prompt: Prompt)     // 201
    | Updated(prompt: Prompt)     // 200
    | Removed(message: string)    // 200
    | BadRequest(message: string) // 400
    | NotFound(message: string)   // 404

  const TitleRequiredMessage: string := "Название обязательно"
  const ContentRequiredMessage: string := "Текст промпта обязателен"
  const PromptNotFoundMessage: string := "Промпт не найден"
  const PromptRemovedMessage: string := "Промпт удалён"

  // ---------------------------------------------------------------------
  // Table invariants
  // ---------------------------------------------------------------------

  predicate UniqueIds(rows: seq<Prompt>) {
    forall i, j :: 0 <= i < j < |rows| ==> rows[i].id != rows[j].id
  }

  /** No user has two rows flagged as default. */
  predicate OneDefaultPerUser(rows: seq<Prompt>) {
    forall i, j :: 0 <= i < j < |rows| && rows[i].isDefault && rows[j].isDefault ==>
      rows[i].userId != rows[j].userId
  }

  predicate TableInvariant(rows: seq<Prompt>, nextId: nat) {
    && UniqueIds(rows)
    && (forall i :: 0 <= i < |rows| ==> rows[i].id < nextId)
    && OneDefaultPerUser(rows)
  }

  /** The rows that belong to users other than `userId`, in table order. */
  function Foreign(rows: seq<Prompt>, userId: int): seq<Prompt> {
    if rows == [] then []
    else
      Foreign(rows[..|rows| - 1], userId)
      + (if rows[|rows| - 1].userId != userId then [rows[|rows| - 1]] else [])
  }

  // ---------------------------------------------------------------------
  // The operations on values
  // ---------------------------------------------------------------------

  /** `!s || !s.trim()`. */
  predicate Missing(s: Option<string>) {
    s.None? || IsBlank(s.value)
  }

  /** The 400 checks of `create`, title first. */
  function CreateCheck(title: Option<string>, content: Option<string>): (r: Option<string>)
    ensures Missing(title) ==> r == Some(TitleRequiredMessage)
    ensures !Missing(title) && Missing(content) ==> r == Some(ContentRequiredMessage)
    ensures r.None? <==> !Missing(title) && !Missing(content)
  {
    if Missing(title) then Some(TitleRequiredMessage)
    else if Missing(content) then Some(ContentRequiredMessage)
    else None
  }

  /** `updateMany({where: {userId, isDefault: true}, data: {isDefault: false}})`:
      the user's rows lose the flag, every other field and every other row
      stays as it was. */
  function Cleared(rows: seq<Prompt>, userId: int): (r: seq<Prompt>)
    ensures |r| == |rows|
    ensures forall i :: 0 <= i < |r| ==>
              && r[i].id == rows[i].id && r[i].userId == rows[i].userId
              && r[i].title == rows[i].title && r[i].content == rows[i].content
              && (rows[i].userId == userId ==> !r[i].isDefault)
              && (rows[i].userId != userId ==> r[i] == rows[i])
  {
    seq(|rows|, i requires 0 <= i < |rows| =>
      if rows[i].userId == userId then rows[i].(isDefault := false) else rows[i])
  }

  /** `given?.trim() || existing`. */
  function KeepOrTrim(given: Option<string>, existing: string): (r: string)
    ensures r == existing <==> Missing(given) || Trim(given.value) == existing
    ensures !Missing(given) ==> r == Trim(given.value)
  {
    if given.Some? && Trim(given.value) != [] then Trim(given.value) else existing
  }

  /** `findFirst({where: {id, userId}})`: the index of the user's prompt with
      that id. */
  function FindOwned(rows: seq<Prompt>, userId: int, id: int): (r: Option<nat>)
    ensures r.Some? ==> r.value < |rows| && rows[r.value].id == id && rows[r.value].userId == userId
    ensures r.None? ==> forall i :: 0 <= i < |rows| ==> !(rows[i].id == id && rows[i].userId == userId)
  {
    if rows == [] then None
    else if rows[|rows| - 1].id == id && rows[|rows| - 1].userId == userId then Some(|rows| - 1)
    else FindOwned(rows[..|rows| - 1], userId, id)
  }

  /** POST /api/prompts on the table: the two 400 checks, then (for a default)
      the clearing step, then one new row with the trimmed fields, appended. */
  function CreatePrompt(rows: seq<Prompt>, nextId: nat, userId: int,
                        title: Option<string>, content: Option<string>, isDefault: Option<bool>)
    : (r: (PromptReply, seq<Prompt>))
    ensures CreateCheck(title, content).Some? ==>
              r == (BadRequest(CreateCheck(title, content).value), rows)
    ensures CreateCheck(title, content).None? ==>
              && r.0 == Created(Prompt(nextId, userId, Trim(title.value), Trim(content.value),
                                       isDefault == Some(true)))
              && r.1 == (if isDefault == Some(true) then Cleared(rows, userId) else rows) + [r.0.prompt]
  {
    match CreateCheck(title, content)
    case Some(message) => (BadRequest(message), rows)
    case None =>
      var made := Prompt(nextId, userId, Trim(title.value), Trim(content.value), isDefault.GetOr(false));
      (Created(made), (if isDefault == Some(true) then Cleared(rows, userId) else rows) + [made])
  }

  /** PUT /api/prompts/:id on the table: 404 unless the caller owns the
      prompt; otherwise (after the clearing step for a default) the row is
      replaced in place, keeping what the request leaves out. */
  function UpdatePrompt(rows: seq<Prompt>, userId: int, id: int,
                        title: Option<string>, content: Option<string>, isDefault: Option<bool>)
    : (r: (PromptReply, seq<Prompt>))
    ensures FindOwned(rows, userId, id).None? ==> r == (NotFound(PromptNotFoundMessage), rows)
    ensures FindOwned(rows, userId, id).Some? ==>
              var i := FindOwned(rows, userId, id).value;
              var existing := rows[i];
              && r.0 == Updated(Prompt(existing.id, userId, KeepOrTrim(title, existing.title),
                                       KeepOrTrim(content, existing.content),
                                       if isDefault.Some? then isDefault.value else existing.isDefault))
              && r.1 == (if isDefault == Some(true) then Cleared(rows, userId) else rows)[i := r.0.prompt]
  {
    match FindOwned(rows, userId, id)
    case None => (NotFound(PromptNotFoundMessage), rows)
    case Some(i) =>
      var existing := rows[i];
      var cleared := if isDefault == Some(true) then Cleared(rows, userId) else rows;
      var updated := Prompt(id, userId, KeepOrTrim(title, existing.title),
                            KeepOrTrim(content, existing.content), isDefault.GetOr(existing.isDefault));
      (Updated(updated), cleared[i := updated])
  }

  /** DELETE /api/prompts/:id on the table: 404 unless the caller owns the
      prompt; otherwise exactly that row is removed. */
  function RemovePrompt(rows: seq<Prompt>, userId: int, id: int): (r: (PromptReply, seq<Prompt>))
    ensures FindOwned(rows, userId, id).None? ==> r == (NotFound(PromptNotFoundMessage), rows)
    ensures FindOwned(rows, userId, id).Some? ==>
              var i := FindOwned(rows, userId, id).value;
              r == (Removed(PromptRemovedMessage), rows[..i] + rows[i + 1..])
  {
    match FindOwned(rows, userId, id)
    case None => (NotFound(PromptNotFoundMessage), rows)
    case Some(i) => (Removed(PromptRemovedMessage), rows[..i] + rows[i + 1..])
  }

  // ---------------------------------------------------------------------
  // Properties of the operations
  // ---------------------------------------------------------------------

  lemma {:induction false} ForeignAppend(a: seq<Prompt>, b: seq<Prompt>, userId: int)
    ensures Foreign(a + b, userId) == Foreign(a, userId) + Foreign(b, userId)
    decreases |b|
  {
    if b == [] {
      assert a + b == a;
    } else {
      var b' := b[..|b| - 1];
      assert (a + b)[..|a + b| - 1] == a + b';
      ForeignAppend(a, b', userId);
    }
  }

  /** The clearing step touches only the requesting user's rows. */
  lemma {:induction false} ClearedKeepsForeign(rows: seq<Prompt>, userId: int)
    ensures Foreign(Cleared(rows, userId), userId) == Foreign(rows, userId)
  {
    if rows != [] {
      var n := |rows| - 1;
      assert Cleared(rows, userId)[..n] == Cleared(rows[..n], userId);
      ClearedKeepsForeign(rows[..n], userId);
    }
  }

  /** The clearing step leaves the user without a default. */
  lemma ClearedHasNoDefault(rows: seq<Prompt>, userId: int)
    requires OneDefaultPerUser(rows)
    ensures OneDefaultPerUser(Cleared(rows, userId))
    ensures forall i :: 0 <= i < |rows| && rows[i].userId == userId ==> !Cleared(rows, userId)[i].isDefault
  {
  }

  /** Replacing one row of the user by another of the user's rows changes
      nothing that belongs to other users. */
  lemma ReplaceOwnedKeepsForeign(rows: seq<Prompt>, i: nat, p: Prompt, userId: int)
    requires i < |rows| && rows[i].userId == userId && p.userId == userId
    ensures Foreign(rows[i := p], userId) == Foreign(rows, userId)
  {
    var r := rows[i := p];
    assert rows == rows[..i] + [rows[i]] + rows[i + 1..];
    assert r == rows[..i] + [p] + rows[i + 1..];
    ForeignAppend(rows[..i] + [rows[i]], rows[i + 1..], userId);
    ForeignAppend(rows[..i], [rows[i]], userId);
    ForeignAppend(rows[..i] + [p], rows[i + 1..], userId);
    ForeignAppend(rows[..i], [p], userId);
    assert [rows[i]][..0] == [] && [p][..0] == [];
  }

  /** Appending a row with a fresh id, which is either not a default or
      belongs to a user without one, keeps the invariant. */
  lemma AppendKeepsInvariant(rows: seq<Prompt>, nextId: nat, p: Prompt)
    requires TableInvariant(rows, nextId) && p.id == nextId
    requires p.isDefault ==> forall i :: 0 <= i < |rows| && rows[i].userId == p.userId ==> !rows[i].isDefault
    ensures TableInvariant(rows + [p], nextId + 1)
  {
    var r := rows + [p];
    assert forall i :: 0 <= i < |rows| ==> r[i] == rows[i];
  }

  /** Overwriting row i with a row of the same id, which is either not a
      default or belongs to a user without another one, keeps the invariant. */
  lemma ReplaceKeepsInvariant(rows: seq<Prompt>, nextId: nat, i: nat, p: Prompt)
    requires TableInvariant(rows, nextId) && i < |rows| && p.id == rows[i].id
    requires p.isDefault ==>
               forall j :: 0 <= j < |rows| && j != i && rows[j].userId == p.userId ==> !rows[j].isDefault
    ensures TableInvariant(rows[i := p], nextId)
  {
  }

  /** `create` keeps the table invariant. */
  lemma CreateKeepsInvariant(rows: seq<Prompt>, nextId: nat, userId: int,
                             title: Option<string>, content: Option<string>, isDefault: Option<bool>)
    requires TableInvariant(rows, nextId)
    ensures var r := CreatePrompt(rows, nextId, userId, title, content, isDefault);
      TableInvariant(r.1, if r.0.Created? then nextId + 1 else nextId)
  {
    var r := CreatePrompt(rows, nextId, userId, title, content, isDefault);
    if r.0.Created? {
      if isDefault == Some(true) {
        ClearedHasNoDefault(rows, userId);
        AppendKeepsInvariant(Cleared(rows, userId), nextId, r.0.prompt);
      } else {
        AppendKeepsInvariant(rows, nextId, r.0.prompt);
      }
    }
  }

  /** `create` leaves other users' prompts as they were. */
  lemma CreateKeepsForeign(rows: seq<Prompt>, nextId: nat, userId: int,
                           title: Option<string>, content: Option<string>, isDefault: Option<bool>)
    ensures Foreign(CreatePrompt(rows, nextId, userId, title, content, isDefault).1, userId) == Foreign(rows, userId)
  {
    var r := CreatePrompt(rows, nextId, userId, title, content, isDefault);
    if r.0.Created? {
      var base := if isDefault == Some(true) then Cleared(rows, userId) else rows;
      if isDefault == Some(true) {
        ClearedKeepsForeign(rows, userId);
      }
      ForeignAppend(base, [r.0.prompt], userId);
      assert [r.0.prompt][..0] == [];
    }
  }

  /** `update` keeps the table invariant. */
  lemma UpdateKeepsInvariant(rows: seq<Prompt>, nextId: nat, userId: int, id: int,
                             title: Option<string>, content: Option<string>, isDefault: Option<bool>)
    requires TableInvariant(rows, nextId)
    ensures TableInvariant(UpdatePrompt(rows, userId, id, title, content, isDefault).1, nextId)
  {
    var r := UpdatePrompt(rows, userId, id, title, content, isDefault);
    var found := FindOwned(rows, userId, id);
    if found.Some? {
      var i := found.value;
      if isDefault == Some(true) {
        ClearedHasNoDefault(rows, userId);
        ReplaceKeepsInvariant(Cleared(rows, userId), nextId, i, r.0.prompt);
      } else {
        ReplaceKeepsInvariant(rows, nextId, i, r.0.prompt);
      }
    }
  }

  /** `update` leaves other users' prompts as they were. */
  lemma UpdateKeepsForeign(rows: seq<Prompt>, userId: int, id: int,
                           title: Option<string>, content: Option<string>, isDefault: Option<bool>)
    ensures Foreign(UpdatePrompt(rows, userId, id, title, content, isDefault).1, userId) == Foreign(rows, userId)
  {
    var r := UpdatePrompt(rows, userId, id, title, content, isDefault);
    var found := FindOwned(rows, userId, id);
    if found.Some? {
      var base := if isDefault == Some(true) then Cleared(rows, userId) else rows;
      if isDefault == Some(true) {
        ClearedKeepsForeign(rows, userId);
      }
      ReplaceOwnedKeepsForeign(base, found.value, r.0.prompt, userId);
    }
  }

  /** `remove` keeps the table invariant. */
  lemma RemoveKeepsInvariant(rows: seq<Prompt>, nextId: nat, userId: int, id: int)
    requires TableInvariant(rows, nextId)
    ensures TableInvariant(RemovePrompt(rows, userId, id).1, nextId)
  {
    var found := FindOwned(rows, userId, id);
    if found.Some? {
      var i := found.value;
      var r := rows[..i] + rows[i + 1..];
      assert forall a :: 0 <= a < |r| ==> r[a] == rows[if a < i then a else a + 1];
    }
  }

  /** `remove` leaves other users' prompts as they were. */
  lemma RemoveKeepsForeign(rows: seq<Prompt>, userId: int, id: int)
    ensures Foreign(RemovePrompt(rows, userId, id).1, userId) == Foreign(rows, userId)
  {
    var found := FindOwned(rows, userId, id);
    if found.Some? {
      var i := found.value;
      assert rows == rows[..i] + [rows[i]] + rows[i + 1..];
      ForeignAppend(rows[..i] + [rows[i]], rows[i + 1..], userId);
      ForeignAppend(rows[..i], [rows[i]], userId);
      ForeignAppend(rows[..i], rows[i + 1..], userId);
      assert [rows[i]][..0] == [];
    }
  }

  // ---------------------------------------------------------------------
  // The table
  // ---------------------------------------------------------------------

  class PromptTable {
    var rows: seq<Prompt>
    /** The id the database assigns to the next row. */
    var nextId: nat

    ghost predicate Valid()
      reads this
    {
      TableInvariant(rows, nextId)
    }

    constructor ()
      ensures Valid() && rows == [] && nextId == 1
    {
      rows := [];
      nextId := 1;
    }

    /** The `updateMany` that clears the user's default flags, row by row. */
    method ClearDefaults(userId: int)
      modifies this
      ensures rows == Cleared(old(rows), userId) && nextId == old(nextId)
    {
      var i := 0;
      while i < |rows|
        invariant i <= |rows| == |old(rows)|
        invariant forall j :: 0 <= j < i ==> rows[j] == Cleared(old(rows), userId)[j]
        invariant forall j :: i <= j < |rows| ==> rows[j] == old(rows)[j]
        invariant nextId == old(nextId)
      {
        if rows[i].userId == userId && rows[i].isDefault {
          rows := rows[i := rows[i].(isDefault := false)];
        }
        i := i + 1;
      }
    }

    /** POST /api/prompts. */
    method Create(userId: int, title: Option<string>, content: Option<string>, isDefault: Option<bool>)
      returns (reply: PromptReply)
      requires Valid()
      modifies this
      ensures Valid()
      ensures (reply, rows) == CreatePrompt(old(rows), old(nextId), userId, title, content, isDefault)
      ensures nextId == if reply.Created? then old(nextId) + 1 else old(nextId)
    {
      CreateKeepsInvariant(rows, nextId, userId, title, content, isDefault);
      if title.None? || Trim(title.value) == [] {
        return BadRequest(TitleRequiredMessage);
      }
      if content.None? || Trim(content.value) == [] {
        return BadRequest(ContentRequiredMessage);
      }
      if isDefault == Some(true) {
        ClearDefaults(userId);
      }
      var prompt := Prompt(nextId, userId, Trim(title.value), Trim(content.value), isDefault.GetOr(false));
      rows := rows + [prompt];
      nextId := nextId + 1;
      reply := Created(prompt);
    }

    /** PUT /api/prompts/:id. */
    method Update(userId: int, id: int, title: Option<string>, content: Option<string>, isDefault: Option<bool>)
      returns (reply: PromptReply)
      requires Valid()
      modifies this
      ensures Valid() && nextId == old(nextId)
      ensures (reply, rows) == UpdatePrompt(old(rows), userId, id, title, content, isDefault)
    {
      UpdateKeepsInvariant(rows, nextId, userId, id, title, content, isDefault);
      var found := FindOwned(rows, userId, id);
      if found.None? {
        return NotFound(PromptNotFoundMessage);
      }
      var i := found.value;
      var existing := rows[i];
      if isDefault == Some(true) {
        ClearDefaults(userId);
      }
      var updated := Prompt(id, userId, KeepOrTrim(title, existing.title),
                            KeepOrTrim(content, existing.content),
                            if isDefault.Some? then isDefault.value else existing.isDefault);
      rows := rows[i := updated];
      reply := Updated(updated);
    }

    /** DELETE /api/prompts/:id. */
    method Remove(userId: int, id: int) returns (reply: PromptReply)
      requires Valid()
      modifies this
      ensures Valid() && nextId == old(nextId)
      ensures (reply, rows) == RemovePrompt(old(rows), userId, id)
    {
      RemoveKeepsInvariant(rows, nextId, userId, id);
      var found := FindOwned(rows, userId, id);
      if found.None? {
        return NotFound(PromptNotFoundMessage);
      }
      var i := found.value;
      rows := rows[..i] + rows[i + 1..];
      reply := Removed(PromptRemovedMessage);
    }
  }
}
