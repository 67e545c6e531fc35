/** The project form: three fixed field validations run in order, the
    accepted values trimmed, and the store called only on success. */
module InputComponent {
  import opened Builtins
  import opened Validation
  import opened States

  function TitleValidatable(title: string): Validatable
  {
    Validatable("Title", Str(title), true, Some(3), None, None, None)
  }

  function DescriptionValidatable(description: string): Validatable
  {
    Validatable("Description", Str(description), true, Some(5), None, None, None)
  }

  function PeopleValidatable(people: int): Validatable
  {
    Validatable("People", Num(people), true, None, None, Some(1), Some(5))
  }

  /** What each field must satisfy, stated directly: a title of at least
      3 characters and a description of at least 5, neither only white space
      (lengths are those of the untrimmed text), and 1 to 5 people. */
  predicate TitleAcceptable(title: string)
  {
    !AllWhitespace(title) && |title| >= 3
  }

  predicate DescriptionAcceptable(description: string)
  {
    !AllWhitespace(description) && |description| >= 5
  }

  predicate PeopleAcceptable(people: int)
  {
    1 <= people <= 5
  }

  const Valid := ValidationOutput(true, None)

  /** The title's validation: blank is reported before short. */
  lemma TitleValidity(title: string)
    ensures var t := TitleValidatable(title);
      Validate(t) ==
        if AllWhitespace(title) then Invalid(Message(t, Required))
        else if |title| < 3 then Invalid(Message(t, MinLength))
        else Valid
  {
    assert Trim(title) == [] <==> AllWhitespace(title);
  }

  /** The description's validation: blank is reported before short. */
  lemma DescriptionValidity(description: string)
    ensures var d := DescriptionValidatable(description);
      Validate(d) ==
        if AllWhitespace(description) then Invalid(Message(d, Required))
        else if |description| < 5 then Invalid(Message(d, MinLength))
        else Valid
  {
    assert Trim(description) == [] <==> AllWhitespace(description);
  }

  /** The people count's validation: a number is never blank, so only the
      range 1 to 5 matters. */
  lemma PeopleValidity(people: int)
    ensures var p := PeopleValidatable(people);
      Validate(p) ==
        if people < 1 then Invalid(Message(p, MinValue))
        else if people > 5 then Invalid(Message(p, MaxValue))
        else Valid
  {
    IntToStringTrimmed(people);
  }

  /** The outcome of `validateUserInput`: `Accepted` for `true`; `Rejected`
      for `false`, carrying the message the form shows with `alert`. */
  datatype Verdict = Accepted | Rejected(alert: string)

  /** `validateUserInput`: accepts exactly the input whose three fields are
      acceptable. */
  function ValidateUserInput(title: string, description: string, people: int): (r: Verdict)
    ensures r.Accepted? <==>
      TitleAcceptable(title) && DescriptionAcceptable(description) && PeopleAcceptable(people)
  {
    TitleValidity(title);
    DescriptionValidity(description);
    PeopleValidity(people);
    var titleValidity := Validate(TitleValidatable(title));
    var descriptionValidity := Validate(DescriptionValidatable(description));
    var peopleValidity := Validate(PeopleValidatable(people));
    if !titleValidity.isValid then Rejected(titleValidity.message.value)
    else if !descriptionValidity.isValid then Rejected(descriptionValidity.message.value)
    else if !peopleValidity.isValid then Rejected(peopleValidity.message.value)
    else Accepted
  }

  /** A failing title decides the alert, whatever the other fields hold:
      blank before too short. */
  lemma TitleAlert(title: string, description: string, people: int)
    ensures AllWhitespace(title) ==>
      ValidateUserInput(title, description, people) == Rejected(Message(TitleValidatable(title), Required))
    ensures !AllWhitespace(title) && |title| < 3 ==>
      ValidateUserInput(title, description, people) == Rejected(Message(TitleValidatable(title), MinLength))
  {
    TitleValidity(title);
  }

  /** With an acceptable title, a failing description decides the alert,
      whatever people holds. */
  lemma DescriptionAlert(title: string, description: string, people: int)
    requires TitleAcceptable(title)
    ensures AllWhitespace(description) ==>
      ValidateUserInput(title, description, people) == Rejected(Message(DescriptionValidatable(description), Required))
    ensures !AllWhitespace(description) && |description| < 5 ==>
      ValidateUserInput(title, description, people) == Rejected(Message(DescriptionValidatable(description), MinLength))
  {
    TitleValidity(title);
    DescriptionValidity(description);
  }

  /** With acceptable text fields, people below 1 or above 5 decides the
      alert. */
  lemma PeopleAlert(title: string, description: string, people: int)
    requires TitleAcceptable(title) && DescriptionAcceptable(description)
    ensures people < 1 ==>
      ValidateUserInput(title, description, people) == Rejected(Message(PeopleValidatable(people), MinValue))
    ensures people > 5 ==>
      ValidateUserInput(title, description, people) == Rejected(Message(PeopleValidatable(people), MaxValue))
  {
    TitleValidity(title);
    DescriptionValidity(description);
    PeopleValidity(people);
  }

  /** `gatherUserInput`: the trimmed title, the trimmed description and the
      number of people when the input passes, nothing otherwise. */
  function GatherUserInput(title: string, description: string, people: int): (r: Option<(string, string, int)>)
    ensures r.Some? <==> ValidateUserInput(title, description, people).Accepted?
    ensures r.Some? ==> r.value == (Trim(title), Trim(description), people)
    ensures r.Some? ==> r.value.0 != [] && r.value.1 != [] && 1 <= r.value.2 <= 5
  {
    if ValidateUserInput(title, description, people).Accepted? then
      Some((Trim(title), Trim(description), people))
    else
      None
  }

  /** Lengths are checked before trimming: a 3-character title that starts
      with a space passes, and reaches the store with 2 characters. */
  lemma LengthCheckedBeforeTrim(title: string, description: string, people: int)
    requires |title| == 3 && IsWhitespace(title[0]) && !IsWhitespace(title[1]) && !IsWhitespace(title[2])
    requires DescriptionAcceptable(description) && PeopleAcceptable(people)
    ensures var gathered := GatherUserInput(title, description, people);
      gathered.Some? && gathered.value.0 == title[1..] && |gathered.value.0| == 2
  {
    assert TrimStart(title) == title[1..];
  }

  /** `ProjectInput`: the form's three input fields. The people field holds
      the number its text reads as. */
  class ProjectInput {
    var titleValue: string
    var descriptionValue: string
    var peopleValue: int

    /** The form with the values the user has entered in its fields. */
    constructor (title: string, description: string, people: int)
      ensures titleValue == title && descriptionValue == description && peopleValue == people
    {
      titleValue := title;
      descriptionValue := description;
      peopleValue := people;
    }

    /** `resetForm`: empties the three fields; an empty people field reads
        as 0 (`+''`). */
    method ResetForm()
      modifies this
      ensures titleValue == "" && descriptionValue == "" && peopleValue == 0
    {
      titleValue := "";
      descriptionValue := "";
      peopleValue := 0;
    }

    /** `submitHandler`: on valid input adds one project with the gathered
        values and clears the form; on invalid input returns the alert and
        changes neither the store nor the form. `id` stands for the fresh id
        the store draws. */
    method SubmitHandler(store: ProjectState, id: string) returns (alert: Option<string>)
      modifies this, store
      ensures var verdict := ValidateUserInput(old(titleValue), old(descriptionValue), old(peopleValue));
        alert == if verdict.Accepted? then None else Some(verdict.alert)
      ensures var input := GatherUserInput(old(titleValue), old(descriptionValue), old(peopleValue));
        match input
        case Some((title, description, people)) =>
          && store.projects == old(store.projects) + [Project(id, title, description, people, Active)]
          && store.listeners == old(store.listeners)
          && store.notifications == old(store.notifications) + Broadcast(|store.listeners|, store.projects)
          && titleValue == "" && descriptionValue == "" && peopleValue == 0
        case None =>
          unchanged(store) && unchanged(this)
    {
      var verdict := ValidateUserInput(titleValue, descriptionValue, peopleValue);
      alert := if verdict.Accepted? then None else Some(verdict.alert);
      var userInput := GatherUserInput(titleValue, descriptionValue, peopleValue);
      if userInput.Some? {
        var (title, description, people) := userInput.value;
        store.AddProject(id, title, description, people);
        ResetForm();
      }
    }
  }
}
