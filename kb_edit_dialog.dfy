/** The create/edit dialog of a knowledge base: the form's one validation
    rule, the values it is filled with for a given knowledge base, and the
    resets around a submission. The form object keeps its current values and
    its default values; `reset(values)` replaces both, `reset()` goes back to
    the defaults. */
module KnowledgeBaseEditDialog {
  import opened Types
  import opened Text

  /** The form's values; `description` is optional in the schema. */
  datatype FormValues = FormValues(name: string, description: Option<string>)

  const NameRequired: string := "请输入知识库名称"

  /** The schema's verdict on a set of values. */
  datatype Validation =
    | Accepted(values: FormValues)
    | Rejected(field: string, message: string)

  /** `formSchema`: the name must have at least one character; the
      description is free, and may be absent. */
  function Validate(v: FormValues): (r: Validation)
    ensures r.Accepted? <==> |v.name| >= 1
    ensures r.Accepted? ==> r.values == v
    ensures r.Rejected? ==> r.field == "name" && r.message == NameRequired
  {
    if |v.name| >= 1 then Accepted(v) else Rejected("name", NameRequired)
  }

  /** The description never affects the verdict. */
  lemma DescriptionIsFree(v: FormValues, d: Option<string>)
    ensures Validate(v.(description := d)).Accepted? == Validate(v).Accepted?
  {
  }

  /** `defaultValues` of `useForm`. */
  function DefaultValues(): (v: FormValues)
    ensures v.name == "" && v.description == Some("")
  {
    FormValues("", Some(""))
  }

  /** The values the effect resets the form to for the knowledge base it is
      given, if any: its name and its description, or '' when the
      description is missing or empty. */
  function ValuesFor(kb: Option<KnowledgeBaseDetail>): (v: FormValues)
    ensures kb.None? ==> v == DefaultValues()
    ensures kb.Some? ==> v.name == kb.value.name
    ensures kb.Some? && kb.value.description.Some? ==> v.description == kb.value.description
    ensures kb.Some? && kb.value.description.None? ==> v.description == Some("")
    ensures v.description.Some?
  {
    match kb
    case Some(k) => FormValues(k.name, Some(OrElse(k.description, "")))
    case None => FormValues("", Some(""))
  }

  /** A blank form is never accepted, so creating needs a name; the values
      of an existing knowledge base are accepted exactly when it has a name. */
  lemma FilledFormValidity(kb: Option<KnowledgeBaseDetail>)
    ensures Validate(DefaultValues()).Rejected?
    ensures Validate(ValuesFor(kb)).Accepted? <==> kb.Some? && kb.value.name != ""
  {
  }

  /** The dialog title: editing when a knowledge base is given. */
  function Title(kb: Option<KnowledgeBaseDetail>): string {
    if kb.Some? then "编辑知识库" else "创建知识库"
  }

  /** The submit button's label. */
  function SubmitLabel(kb: Option<KnowledgeBaseDetail>): string {
    if kb.Some? then "保存" else "创建"
  }

  /** Title and button agree: both say edit/save, or both say create. */
  lemma LabelsAgree(kb: Option<KnowledgeBaseDetail>)
    ensures kb.Some? <==> Title(kb) == "编辑知识库" && SubmitLabel(kb) == "保存"
    ensures kb.None? <==> Title(kb) == "创建知识库" && SubmitLabel(kb) == "创建"
  {
  }

  /** The state of the form object. */
  datatype FormState = FormState(values: FormValues, defaults: FormValues)

  /** `reset(values)`. */
  function ResetTo(s: FormState, v: FormValues): (r: FormState)
    ensures r.values == v && r.defaults == v
  {
    FormState(v, v)
  }

  /** `reset()`. */
  function ResetToDefaults(s: FormState): (r: FormState)
    ensures r.values == s.defaults && r.defaults == s.defaults
  {
    s.(values := s.defaults)
  }

  /** A submission of the current values; `resolves` is how `onSubmit`
      settles. Returns the values handed to `onSubmit`, if any, and the
      state the form is left in. */
  function Submit(s: FormState, resolves: bool): (r: (Option<FormValues>, FormState))
    ensures r.0.Some? <==> Validate(s.values).Accepted?
    ensures r.0.Some? ==> r.0.value == s.values
    ensures r.0.Some? && resolves ==> r.1 == ResetToDefaults(s)
    ensures r.0.None? || !resolves ==> r.1 == s
  {
    match Validate(s.values)
    case Accepted(v) => (Some(v), if resolves then ResetToDefaults(s) else s)
    case Rejected(_, _) => (None, s)
  }

  /** After the effect has run for a knowledge base, a successful submission
      brings the form back to that knowledge base's values, not to blank
      ones; a failed one keeps what was typed. */
  lemma SubmitAfterSync(s: FormState, kb: Option<KnowledgeBaseDetail>, typed: FormValues, resolves: bool)
    ensures var synced := ResetTo(s, ValuesFor(kb));
      var edited := synced.(values := typed);
      && (Validate(typed).Accepted? && resolves ==> Submit(edited, resolves).1.values == ValuesFor(kb))
      && (!resolves ==> Submit(edited, resolves).1.values == typed)
  {
  }

  /** Running the effect twice is running it once. */
  lemma SyncIdempotent(s: FormState, kb: Option<KnowledgeBaseDetail>)
    ensures ResetTo(ResetTo(s, ValuesFor(kb)), ValuesFor(kb)) == ResetTo(s, ValuesFor(kb))
  {
  }

  /** The form object of the dialog and what it has handed to `onSubmit`. */
  class EditForm {
    var values: FormValues
    var defaults: FormValues
    var submitted: seq<FormValues>

    function State(): FormState
      reads this
    {
      FormState(values, defaults)
    }

    constructor ()
      ensures State() == FormState(DefaultValues(), DefaultValues()) && submitted == []
    {
      values := DefaultValues();
      defaults := DefaultValues();
      submitted := [];
    }

    /** The effect on `knowledgeBase`. */
    method SyncWithKnowledgeBase(kb: Option<KnowledgeBaseDetail>)
      modifies this
      ensures State() == ResetTo(old(State()), ValuesFor(kb)) && submitted == old(submitted)
    {
      var v: FormValues;
      if kb.Some? {
        v := FormValues(kb.value.name, Some(OrElse(kb.value.description, "")));
      } else {
        v := FormValues("", Some(""));
      }
      values := v;
      defaults := v;
    }

    /** Typing in the name field. */
    method SetName(name: string)
      modifies this
      ensures State() == old(State()).(values := old(values).(name := name)) && submitted == old(submitted)
    {
      values := values.(name := name);
    }

    /** Typing in the description field. */
    method SetDescription(d: string)
      modifies this
      ensures State() == old(State()).(values := old(values).(description := Some(d))) && submitted == old(submitted)
    {
      values := values.(description := Some(d));
    }

    /** `form.handleSubmit(handleSubmit)`: a rejected form shows its message
        and calls nothing; an accepted one is handed to `onSubmit`, and the
        form is reset only once that resolves. */
    method HandleSubmit(resolves: bool) returns (verdict: Validation)
      modifies this
      ensures verdict == Validate(old(values))
      ensures submitted == old(submitted) + (match Submit(old(State()), resolves).0 case Some(v) => [v] case None => [])
      ensures State() == Submit(old(State()), resolves).1
    {
      verdict := Validate(values);
      if verdict.Rejected? {
        return;
      }
      submitted := submitted + [verdict.values];
      if resolves {
        values := defaults;
      }
    }
  }
}
