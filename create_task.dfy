/**
 * The task creation page: the attachment list's updaters, the object handed to
 * `taskService.createTask`, and the field rules.
 */
module CreateTask {
  import opened Wrappers
  import opened Forms
  import Api

  /** `handleFileChange`: the chosen files go after the ones already attached, both in order. */
  function AddFiles(attachments: seq<Api.File>, chosen: seq<Api.File>): (r: seq<Api.File>)
    ensures |r| == |attachments| + |chosen|
    ensures r[..|attachments|] == attachments && r[|attachments|..] == chosen
  {
    attachments + chosen
  }

  /** `removeAttachment(index)`: `filter((_, i) => i !== index)`, one position at a time. */
  function RemoveAttachment(attachments: seq<Api.File>, index: int): (r: seq<Api.File>)
    ensures |r| <= |attachments|
  {
    if attachments == [] then []
    else
      var last := |attachments| - 1;
      RemoveAttachment(attachments[..last], index) + (if last == index then [] else [attachments[last]])
  }

  /**
   * An index in range removes exactly that attachment and keeps the others in
   * order; any other index leaves the list as it was.
   */
  lemma {:induction false} RemoveAttachmentSpec(attachments: seq<Api.File>, index: int)
    ensures 0 <= index < |attachments| ==>
      RemoveAttachment(attachments, index) == attachments[..index] + attachments[index + 1..]
    ensures !(0 <= index < |attachments|) ==> RemoveAttachment(attachments, index) == attachments
  {
    if attachments != [] {
      var last := |attachments| - 1;
      var init := attachments[..last];
      RemoveAttachmentSpec(init, index);
      if index == last {
        assert init == attachments[..index] + attachments[index + 1..];
      } else if 0 <= index < last {
        assert init[..index] == attachments[..index];
        assert init[index + 1..] + [attachments[last]] == attachments[index + 1..];
      } else {
        assert init + [attachments[last]] == attachments;
      }
    }
  }

  /** The form's text values, in the order the fields are registered. */
  datatype TaskForm = TaskForm(title: string, description: string, budget: string, deadline: string)

  /** The form's fields with the numeric budget in place of the text one. */
  function TaskFields(form: TaskForm, budget: real): Api.Object {
    [("title", Api.Text(form.title)),
     ("description", Api.Text(form.description)),
     ("budget", Api.Number(budget)),
     ("deadline", Api.Text(form.deadline))]
  }

  /**
   * `taskData`: `{ ...data, budget, attachments }`. Spreading keeps the form's
   * key order, the numeric budget takes the place of the text one, and the
   * attachments come last. `budget` is the value `parseFloat` produced.
   */
  function TaskData(form: TaskForm, budget: real, attachments: seq<Api.File>): (o: Api.Object)
    ensures Api.DistinctKeys(o) && Api.AttachmentsAreFiles(o)
    ensures Api.Lookup(o, "title") == Some(Api.Text(form.title))
    ensures Api.Lookup(o, "description") == Some(Api.Text(form.description))
    ensures Api.Lookup(o, "budget") == Some(Api.Number(budget))
    ensures Api.Lookup(o, "deadline") == Some(Api.Text(form.deadline))
    ensures Api.Lookup(o, Api.AttachmentsKey) == Some(Api.Files(attachments))
  {
    var o := TaskFields(form, budget) + [(Api.AttachmentsKey, Api.Files(attachments))];
    Api.LookupAt(o, 0);
    Api.LookupAt(o, 1);
    Api.LookupAt(o, 2);
    Api.LookupAt(o, 3);
    Api.LookupAt(o, 4);
    o
  }

  /**
   * The created task goes out as multipart exactly when files are attached,
   * carrying those files in order and every other field once; otherwise the
   * object itself is sent.
   */
  lemma TaskDataBody(form: TaskForm, budget: real, attachments: seq<Api.File>)
    ensures var o := TaskData(form, budget, attachments);
      (Api.HasAttachments(o) <==> |attachments| > 0) &&
      Api.FilesOf(Api.FormParts(o)) == attachments &&
      Api.FieldsOf(Api.FormParts(o)) == TaskFields(form, budget)
  {
    var o := TaskData(form, budget, attachments);
    Api.FormPartsContents(o);
    assert o[..|o| - 1] == TaskFields(form, budget);
    Api.WithoutAttachmentsKeeps(TaskFields(form, budget));
  }

  const TitleMax := 200

  /** The title field. The rule admits exactly 200 characters, though its message says "less than 200". */
  const TitleRules: seq<Rule> :=
    [Required("Title is required"), MaxLength(TitleMax, "Title must be less than 200 characters")]

  const DescriptionRules: seq<Rule> := [Required("Description is required")]

  /** A title is accepted exactly when it has between 1 and 200 characters. */
  lemma TitleRulesAccept(title: string)
    ensures Validate(title, TitleRules).Valid? <==> 1 <= |title| <= TitleMax
    ensures title == [] ==> Validate(title, TitleRules) == Invalid("Title is required")
    ensures |title| > TitleMax ==> Validate(title, TitleRules) == Invalid("Title must be less than 200 characters")
  {
    assert Breaks(title, TitleRules[0]) <==> title == [];
  }

  /** A description is accepted exactly when it is not empty. */
  lemma DescriptionRulesAccept(description: string)
    ensures Validate(description, DescriptionRules).Valid? <==> description != []
  {
    assert Breaks(description, DescriptionRules[0]) <==> description == [];
  }

  /** The budget field: a number input, empty or holding a number. */
  function BudgetCheck(budget: Option<real>): (c: Check)
    ensures c.Valid? <==> budget.Some? && budget.value >= 1.0
    ensures budget.None? ==> c == Invalid("Budget is required")
    ensures budget.Some? && budget.value < 1.0 ==> c == Invalid("Budget must be at least $1")
  {
    if budget.None? then Invalid("Budget is required")
    else if budget.value < 1.0 then Invalid("Budget must be at least $1")
    else Valid
  }
}
