/**
 * The create and update submissions, shared by both generations: collect one posted value per
 * named field, validate the required fields in declaration order stopping at the first
 * failure, and only then hand the values to the caller's callback.
 */
module Submission {
  import opened Wrappers
  import opened GoStrings
  import opened CrudTypes

  const MsgSaved := "Saved successfully"
  const MsgSaveFailed := "Save failed: "
  const MsgIdRequired := "Entity ID is required"

  /** The field names in declaration order. */
  function FieldNames(fields: seq<FormField>): (names: seq<string>)
    ensures |names| == |fields|
    ensures forall i :: 0 <= i < |fields| ==> names[i] == fields[i].name
  {
    seq(|fields|, i requires 0 <= i < |fields| => fields[i].name)
  }

  /** `a` is `b` with some elements left out, the rest in the same order. */
  predicate IsSubsequence(a: seq<string>, b: seq<string>)
    decreases |b|
  {
    if b == [] then a == []
    else
      (a != [] && a[|a| - 1] == b[|b| - 1] && IsSubsequence(a[..|a| - 1], b[..|b| - 1]))
      || IsSubsequence(a, b[..|b| - 1])
  }

  /** The names a submission collects: every non-empty field name, in declaration order. */
  function NonEmptyNames(fields: seq<FormField>): (names: seq<string>)
    ensures |names| <= |fields|
    ensures forall n :: n in names <==> n != "" && exists i :: 0 <= i < |fields| && fields[i].name == n
    decreases |fields|
  {
    if fields == [] then []
    else
      var init := NonEmptyNames(fields[..|fields| - 1]);
      var last := fields[|fields| - 1];
      assert forall i :: 0 <= i < |fields| - 1 ==> fields[..|fields| - 1][i] == fields[i];
      if last.name == "" then init else init + [last.name]
  }

  /** Dropping empty names keeps the others in declaration order. */
  lemma {:induction false} NonEmptyNamesSubsequence(fields: seq<FormField>)
    ensures IsSubsequence(NonEmptyNames(fields), FieldNames(fields))
    decreases |fields|
  {
    if fields != [] {
      var init := fields[..|fields| - 1];
      NonEmptyNamesSubsequence(init);
      assert FieldNames(fields)[..|fields| - 1] == FieldNames(init);
      var names := NonEmptyNames(fields);
      if fields[|fields| - 1].name != "" {
        assert names[..|names| - 1] == NonEmptyNames(init);
      }
    }
  }

  /** `listCreateNames` / `listUpdateNames`: the loop that appends each non-empty name. */
  method ListNames(fields: seq<FormField>) returns (names: seq<string>)
    ensures names == NonEmptyNames(fields)
  {
    names := [];
    var i := 0;
    while i < |fields|
      invariant 0 <= i <= |fields|
      invariant names == NonEmptyNames(fields[..i])
    {
      assert fields[..i + 1][..i] == fields[..i];
      if fields[i].name != "" {
        names := names + [fields[i].name];
      }
      i := i + 1;
    }
    assert fields[..|fields|] == fields;
  }

  /** The posted values: one entry per listed name, "" when the request lacks it. */
  function PostsFor(names: seq<string>, request: Request): Posts
  {
    map n | n in names :: Req(request, n, "")
  }

  /** The loop that fills `posts`, one listed name at a time. */
  method CollectPosts(names: seq<string>, request: Request) returns (posts: Posts)
    ensures posts.Keys == set n | n in names
    ensures forall n :: n in names ==> posts[n] == Req(request, n, "")
    ensures posts == PostsFor(names, request)
  {
    posts := map[];
    var i := 0;
    while i < |names|
      invariant 0 <= i <= |names|
      invariant posts.Keys == set n | n in names[..i]
      invariant forall n :: n in names[..i] ==> posts[n] == Req(request, n, "")
    {
      assert names[..i + 1] == names[..i] + [names[i]];
      posts := posts[names[i] := Req(request, names[i], "")];
      i := i + 1;
    }
    assert names[..|names|] == names;
  }

  /** A required field fails when its name was not posted or its value is empty. */
  predicate Violates(field: FormField, posts: Posts)
  {
    field.required && (field.name !in posts || posts[field.name] == "")
  }

  /** The message for a required field that failed. */
  function RequiredMessage(field: FormField): string
  {
    field.labelText + " is required field"
  }

  /** The first field, in declaration order, that fails validation. */
  function FirstViolation(fields: seq<FormField>, posts: Posts): (r: Option<nat>)
    ensures r.Some? ==> r.value < |fields| && Violates(fields[r.value], posts)
    ensures r.Some? ==> forall j :: 0 <= j < r.value ==> !Violates(fields[j], posts)
    ensures r.None? ==> forall j :: 0 <= j < |fields| ==> !Violates(fields[j], posts)
    decreases |fields|
  {
    if fields == [] then None
    else if Violates(fields[0], posts) then Some(0)
    else
      match FirstViolation(fields[1..], posts)
      case None => None
      case Some(k) => Some(k + 1)
  }

  /** The message validation reports, if any. */
  function ValidationError(fields: seq<FormField>, posts: Posts): Option<string>
  {
    match FirstViolation(fields, posts)
    case None => None
    case Some(i) => Some(RequiredMessage(fields[i]))
  }

  /** The fail-fast loop over the fields, returning at the first failure. */
  method CheckRequired(fields: seq<FormField>, posts: Posts) returns (message: Option<string>)
    ensures message == ValidationError(fields, posts)
  {
    var i := 0;
    while i < |fields|
      invariant 0 <= i <= |fields|
      invariant forall j :: 0 <= j < i ==> !Violates(fields[j], posts)
    {
      var field := fields[i];
      if field.required {
        if field.name !in posts {
          return Some(RequiredMessage(field));
        }
        if posts[field.name] == "" {
          return Some(RequiredMessage(field));
        }
      }
      i := i + 1;
    }
    return None;
  }

  /** The values a submission of `fields` hands on. */
  function SubmittedPosts(fields: seq<FormField>, request: Request): Posts
  {
    PostsFor(NonEmptyNames(fields), request)
  }

  /** Validation passes: the only case in which a callback is reached. */
  predicate PassesValidation(fields: seq<FormField>, request: Request)
  {
    FirstViolation(fields, SubmittedPosts(fields, request)).None?
  }

  /**
   * Validation in terms of the request: a required field fails exactly when its name is empty
   * (it is never collected) or the request's value for it is missing or empty.
   */
  lemma ViolatesInRequest(fields: seq<FormField>, request: Request, i: int)
    requires 0 <= i < |fields|
    ensures Violates(fields[i], SubmittedPosts(fields, request))
      <==> fields[i].required && (fields[i].name == "" || Req(request, fields[i].name, "") == "")
  {
    var posts := SubmittedPosts(fields, request);
    if fields[i].name != "" {
      assert fields[i].name in NonEmptyNames(fields);
    }
  }

  /** A required field without a name makes every submission fail, at that field or earlier. */
  lemma UnnamedRequiredAlwaysFails(fields: seq<FormField>, request: Request, i: int)
    requires 0 <= i < |fields| && fields[i].required && fields[i].name == ""
    ensures var r := FirstViolation(fields, SubmittedPosts(fields, request)); r.Some? && r.value <= i
  {
    ViolatesInRequest(fields, request, i);
  }

  /**
   * The create submission's result: the first failing required field's message, or the
   * callback's error prefixed with "Save failed: ", or success with the id the callback returned.
   */
  function CreateOutcome(fields: seq<FormField>, create: Option<CreateFunc>, request: Request): (out: Outcome)
    requires PassesValidation(fields, request) ==> create.Some?
  {
    var posts := SubmittedPosts(fields, request);
    match ValidationError(fields, posts)
    case Some(message) => Error(message)
    case None =>
      var (id, err) := create.value(posts);
      if err.Err? then Error(MsgSaveFailed + err.message) else Success(MsgSaved, id)
  }

  /** The id an update or trash request names: `entity_id` with the ASCII spaces trimmed. */
  function EntityId(request: Request): string
  {
    TrimBlanks(Req(request, "entity_id", ""))
  }

  /** The update callback is reached only with an id and valid fields. */
  predicate UpdateReachesCallback(fields: seq<FormField>, request: Request)
  {
    EntityId(request) != "" && PassesValidation(fields, request)
  }

  /**
   * The update submission's result: a missing id first, then the first failing required field,
   * then the callback's error, and otherwise success echoing the trimmed id.
   */
  function UpdateOutcome(fields: seq<FormField>, update: Option<UpdateFunc>, request: Request): (out: Outcome)
    requires UpdateReachesCallback(fields, request) ==> update.Some?
  {
    var id := EntityId(request);
    if id == "" then Error(MsgIdRequired)
    else
      var posts := SubmittedPosts(fields, request);
      match ValidationError(fields, posts)
      case Some(message) => Error(message)
      case None =>
        var err := update.value(id, posts);
        if err.Err? then Error(MsgSaveFailed + err.message) else Success(MsgSaved, id)
  }

  /** A failed validation reports the first failing field and never consults the callback. */
  lemma CreateFailsFast(fields: seq<FormField>, c1: Option<CreateFunc>, c2: Option<CreateFunc>,
                        request: Request, i: nat)
    requires FirstViolation(fields, SubmittedPosts(fields, request)) == Some(i)
    ensures CreateOutcome(fields, c1, request) == Error(RequiredMessage(fields[i]))
    ensures CreateOutcome(fields, c1, request) == CreateOutcome(fields, c2, request)
  {
  }

  /** Past validation, the callback's result alone decides the response. */
  lemma CreateAfterValidation(fields: seq<FormField>, create: CreateFunc, request: Request)
    requires PassesValidation(fields, request)
    ensures var (id, err) := create(SubmittedPosts(fields, request));
      CreateOutcome(fields, Some(create), request)
        == if err.Err? then Error(MsgSaveFailed + err.message) else Success(MsgSaved, id)
  {
  }

  /**
   * An update without an id (or with only spaces) is refused before validation, whatever the
   * fields and the callback; a successful one echoes the trimmed id, which then neither
   * starts nor ends with a space.
   */
  lemma UpdateIdRules(fields: seq<FormField>, u1: Option<UpdateFunc>, u2: Option<UpdateFunc>,
                      request: Request)
    requires UpdateReachesCallback(fields, request) ==> u1.Some? && u2.Some?
    ensures (forall k :: 0 <= k < |Req(request, "entity_id", "")| ==> Req(request, "entity_id", "")[k] == ' ')
      ==> UpdateOutcome(fields, u1, request) == UpdateOutcome(fields, u2, request) == Error(MsgIdRequired)
    ensures var out := UpdateOutcome(fields, u1, request);
      out.Success? ==> (out.entityId == EntityId(request) && out.entityId != ""
                        && out.entityId[0] != ' ' && out.entityId[|out.entityId| - 1] != ' ')
  {
    EntityIdEdges(request);
    UpdateIdOutcome(fields, u1, request);
    UpdateIdOutcome(fields, u2, request);
  }

  /** The trimmed id is empty for an id of spaces, and otherwise keeps no space at either end. */
  lemma EntityIdEdges(request: Request)
    ensures (forall k :: 0 <= k < |Req(request, "entity_id", "")| ==> Req(request, "entity_id", "")[k] == ' ')
      ==> EntityId(request) == ""
    ensures var id := EntityId(request); id != "" ==> id[0] != ' ' && id[|id| - 1] != ' '
  {
    TrimBlanksEdges(Req(request, "entity_id", ""));
  }

  /** An empty trimmed id is refused, and a successful update reports the trimmed id. */
  lemma UpdateIdOutcome(fields: seq<FormField>, update: Option<UpdateFunc>, request: Request)
    requires UpdateReachesCallback(fields, request) ==> update.Some?
    ensures EntityId(request) == "" ==> UpdateOutcome(fields, update, request) == Error(MsgIdRequired)
    ensures var out := UpdateOutcome(fields, update, request);
      out.Success? ==> out.entityId == EntityId(request) != ""
  {
  }

  /** A failed update validation never consults the callback. */
  lemma UpdateFailsFast(fields: seq<FormField>, u1: Option<UpdateFunc>, u2: Option<UpdateFunc>,
                        request: Request, i: nat)
    requires EntityId(request) != ""
    requires FirstViolation(fields, SubmittedPosts(fields, request)) == Some(i)
    ensures UpdateOutcome(fields, u1, request) == Error(RequiredMessage(fields[i]))
    ensures UpdateOutcome(fields, u1, request) == UpdateOutcome(fields, u2, request)
  {
  }
}
