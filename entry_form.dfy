/** The entry form page: mode from the route, the validated field set, loading
    the entry in edit mode, and the submit / success / error transitions. */
module EntryForms {
  import opened Results
  import opened Models
  import opened Forms
  import opened EntryServices

  const NewEntryTitle := "Cadastro de nova Lançamento"
  const EditEntryPrefix := "Editando Lançamento: "
  const LoadFailedAlert := "Ocorreu um erro no servidor, tente mais tarde."
  const SubmitSucceededAlert := "Solicitação processada com sucesso"
  const SubmitFailedAlert := "Ocorreu um erro ao processar a sua solicitação"
  const CommunicationFailureMessage := "Falha na comunicação com o servidoor. Por favor, tente mais tarde."

  /** The values of the entry form's controls (`kind` is the `type` control). */
  datatype EntryFormValue = EntryFormValue(
    id: Option<int>,
    name: Option<string>,
    description: Option<string>,
    kind: Option<string>,
    amount: Option<string>,
    date: Option<string>,
    paid: Option<bool>,
    categoryId: Option<int>)

  /** The form as built: every control null. */
  const BlankEntryForm := EntryFormValue(None, None, None, None, None, None, None, None)

  /** The field set, control by control, with the validators it declares. */
  function EntryFormGroup(v: EntryFormValue): seq<Control> {
    [ Control("id", NumberValue(v.id), []),
      Control("name", TextValue(v.name), [Required, MaxLength(2)]),
      Control("description", TextValue(v.description), []),
      Control("type", TextValue(v.kind), [Required]),
      Control("amount", TextValue(v.amount), [Required]),
      Control("date", TextValue(v.date), [Required]),
      Control("paid", FlagValue(v.paid), [Required]),
      Control("categoryId", NumberValue(v.categoryId), [Required]) ]
  }

  predicate EntryFormValid(v: EntryFormValue) {
    GroupValid(EntryFormGroup(v))
  }

  /** The entry form is valid exactly when name, type, amount, date, paid and
      categoryId are all given and the name's `length` is at most two. */
  lemma EntryFormValidity(v: EntryFormValue)
    ensures EntryFormValid(v) <==>
      && Filled(v.name) && Utf16Length(v.name.value) <= 2
      && Filled(v.kind) && Filled(v.amount) && Filled(v.date)
      && v.paid.Some? && v.categoryId.Some?
  {
    var g := EntryFormGroup(v);
    if EntryFormValid(v) {
      assert Passes(g[1].value, g[1].validators[0]);
      assert Passes(g[1].value, g[1].validators[1]);
      assert Passes(g[3].value, g[3].validators[0]);
      assert Passes(g[4].value, g[4].validators[0]);
      assert Passes(g[5].value, g[5].validators[0]);
      assert Passes(g[6].value, g[6].validators[0]);
      assert Passes(g[7].value, g[7].validators[0]);
    }
  }

  /** A freshly built form cannot be submitted as valid. */
  lemma BlankEntryFormInvalid()
    ensures !EntryFormValid(BlankEntryForm)
  {
    EntryFormValidity(BlankEntryForm);
  }

  /** The id and description controls carry no validator. */
  lemma EntryFormIgnoresIdAndDescription(v: EntryFormValue, id: Option<int>, description: Option<string>)
    ensures EntryFormValid(v.(id := id, description := description)) == EntryFormValid(v)
  {
    EntryFormValidity(v);
    EntryFormValidity(v.(id := id, description := description));
  }

  /** `patchValue(entry)`: each control takes the entry's field of the same name. */
  function PatchedForm(d: EntryData): EntryFormValue {
    EntryFormValue(d.id, d.name, d.description, d.kind, d.amount, d.date, d.paid, d.categoryId)
  }

  /** `Object.assign(new Entry(), form.value)`: the form's fields, no category. */
  function FormEntryData(v: EntryFormValue): (d: EntryData)
    ensures d.category == None
    ensures PatchedForm(d) == v
  {
    EntryData(v.id, v.name, v.description, v.kind, v.amount, v.date, v.paid, v.categoryId, None)
  }

  /** Reading back a patched form gives the record it was patched with, less
      its category, which the form has no control for. */
  lemma PatchedFormRoundTrip(d: EntryData)
    ensures FormEntryData(PatchedForm(d)) == d.(category := None)
  {
  }

  function EntryTitle(action: Action, name: Option<string>): string {
    PageTitle(action, NewEntryTitle, EditEntryPrefix, name)
  }

  /** The title tells the modes apart: no edit title equals the creation title. */
  lemma EntryTitleShowsMode(action: Action, newName: Option<string>, name: Option<string>)
    requires action != New
    ensures EntryTitle(New, newName) != EntryTitle(action, name)
  {
    assert EntryTitle(New, newName)[0] == 'C';
    assert EntryTitle(action, name)[..|EditEntryPrefix|] == EditEntryPrefix;
  }

  /** The messages shown after a failed submission. */
  function ServerErrorMessages(error: HttpError): (m: seq<string>)
    ensures error.status == 422 ==> m == error.errors
    ensures error.status != 422 ==> m == [CommunicationFailureMessage]
  {
    if error.status == 422 then error.errors else [CommunicationFailureMessage]
  }

  /** One element of a router command array: a path segment or an id. */
  datatype RouteCommand = Path(segment: string) | Param(id: Option<int>)

  datatype Navigation =
    | NavigateByUrl(url: string, skipLocationChange: bool)
    | Navigate(commands: seq<RouteCommand>)

  /** Leave for `entries` without a history entry, then open the edit page of `id`. */
  function ReloadAsEdit(id: Option<int>): (r: seq<Navigation>)
    ensures |r| == 2 && r[0].NavigateByUrl? && r[0].skipLocationChange
    ensures r[1].Navigate? && Param(id) in r[1].commands
  {
    [NavigateByUrl("entries", true), Navigate([Path("entries"), Param(id), Path("edit")])]
  }

  /** The record a submission writes: the form's fields with the looked-up category. */
  function SubmittedData(v: EntryFormValue, category: Category): EntryData {
    FormEntryData(v).(category := Some(category))
  }

  /** The requests one submission issues: the category lookup, then (only if
      it succeeded) one POST when creating or one PUT when editing. */
  function SubmitRequests(creating: bool, v: EntryFormValue, lookup: Result<Category>): (r: seq<Request>)
    ensures |r| == if lookup.Success? then 2 else 1
    ensures |r| > 0 && r[0] == CategoryLookup(v.categoryId)
    ensures |r| == 2 ==> r[1].HttpPost? == creating && r[1].HttpPut? == !creating
    ensures |r| == 2 ==> r[1].body == SubmittedData(v, lookup.value) && r[1].body.category == Some(lookup.value)
    ensures |r| == 2 ==> r[1].url == if creating then ApiPath else ItemUrl(v.id)
  {
    [CategoryLookup(v.categoryId)] +
    match lookup
    case Failure(_) => []
    case Success(c) =>
      if creating then [HttpPost(ApiPath, SubmittedData(v, c))]
      else [HttpPut(ItemUrl(v.id), SubmittedData(v, c))]
  }

  /** What a submission ends with: the id of the saved entry, or the first
      error. A created entry's id comes from the back end's reply; an updated
      entry keeps the id the form holds. */
  function SubmitOutcome(creating: bool, v: EntryFormValue, lookup: Result<Category>, response: Result<EntryData>): (r: Result<Option<int>>)
    ensures lookup.Failure? ==> r == Failure(lookup.error)
    ensures lookup.Success? && response.Failure? ==> r == Failure(response.error)
    ensures r.Success? <==> lookup.Success? && response.Success?
    ensures r.Success? && !creating ==> r.value == v.id
    ensures r.Success? && creating ==> r.value == response.value.id
  {
    match lookup
    case Failure(e) => Failure(e)
    case Success(_) =>
      match response
      case Failure(e) => Failure(e)
      case Success(saved) => Success(if creating then saved.id else v.id)
  }

  class EntryFormComponent {
    const entryService: EntryService
    /** The activated route's URL segments and its parsed `id` parameter. */
    const url: seq<UrlSegment>
    const routeId: int

    var currentAction: Action
    var entryForm: EntryFormValue
    var pageTitle: Option<string>
    var serverErrorMessages: seq<string>
    var submittingForm: bool
    var entry: Entry
    /** The `alert` messages shown so far, oldest first. */
    var alerts: seq<string>
    /** The router navigations requested so far, oldest first. */
    var navigations: seq<Navigation>

    constructor (entryService: EntryService, url: seq<UrlSegment>, routeId: int)
      ensures this.entryService == entryService && this.url == url && this.routeId == routeId
      ensures currentAction == Undetermined && entryForm == BlankEntryForm && pageTitle == None
      ensures serverErrorMessages == [] && !submittingForm
      ensures fresh(entry) && entry.Data() == EmptyEntryData
      ensures alerts == [] && navigations == []
    {
      this.entryService, this.url, this.routeId := entryService, url, routeId;
      currentAction, entryForm, pageTitle := Undetermined, BlankEntryForm, None;
      serverErrorMessages, submittingForm := [], false;
      entry := new Entry(EmptyEntryData);
      alerts, navigations := [], [];
    }

    method NgOnInit(response: Result<EntryData>)
      requires |url| > 0
      modifies this`currentAction, this`entryForm, this`entry, this`alerts, entryService
      ensures currentAction == ActionOf(url)
      ensures currentAction == New ==>
        && entryForm == BlankEntryForm && entry == old(entry) && alerts == old(alerts)
        && entryService.requests == old(entryService.requests)
      ensures currentAction == Edit ==>
        entryService.requests == old(entryService.requests) + [HttpGet(ItemUrl(Some(routeId)))]
      ensures currentAction == Edit && response.Success? ==>
        && fresh(entry) && entry.Data() == response.value
        && entryForm == PatchedForm(response.value) && alerts == old(alerts)
      ensures currentAction == Edit && response.Failure? ==>
        && entry == old(entry) && entryForm == BlankEntryForm
        && alerts == old(alerts) + [LoadFailedAlert]
    {
      SetCurrentAction();
      BuildEntryForm();
      LoadEntry(response);
    }

    /** Run after every content check: the title follows mode and loaded entry. */
    method SetPageTitle()
      modifies this`pageTitle
      ensures pageTitle == Some(EntryTitle(currentAction, entry.name))
    {
      pageTitle := Some(EntryTitle(currentAction, entry.name));
    }

    method SetCurrentAction()
      requires |url| > 0
      modifies this`currentAction
      ensures currentAction == New <==> url[0].path == "new"
      ensures currentAction == Edit <==> url[0].path != "new"
    {
      currentAction := ActionOf(url);
    }

    method BuildEntryForm()
      modifies this`entryForm
      ensures entryForm == BlankEntryForm
    {
      entryForm := BlankEntryForm;
    }

    /** In edit mode, fetches the route's entry; on success it becomes the
        page's entry and fills the form, on failure one alert is shown. */
    method LoadEntry(response: Result<EntryData>)
      modifies this`entry, this`entryForm, this`alerts, entryService
      ensures currentAction != Edit ==>
        && entry == old(entry) && entryForm == old(entryForm) && alerts == old(alerts)
        && entryService.requests == old(entryService.requests)
      ensures currentAction == Edit ==>
        entryService.requests == old(entryService.requests) + [HttpGet(ItemUrl(Some(routeId)))]
      ensures currentAction == Edit && response.Success? ==>
        && fresh(entry) && entry.Data() == response.value
        && entryForm == PatchedForm(response.value) && alerts == old(alerts)
      ensures currentAction == Edit && response.Failure? ==>
        && entry == old(entry) && entryForm == old(entryForm)
        && alerts == old(alerts) + [LoadFailedAlert]
    {
      if currentAction == Edit {
        var r := entryService.GetById(Some(routeId), response);
        match r
        case Success(loaded) =>
          entry := loaded;
          entryForm := PatchedForm(loaded.Data());
        case Failure(_) =>
          alerts := alerts + [LoadFailedAlert];
      }
    }

    /** Marks the form as submitting and creates the entry in `New` mode,
        updates it in every other mode. */
    method SubmitForm(lookup: Result<Category>, response: Result<EntryData>)
      modifies this`submittingForm, this`serverErrorMessages, this`alerts, this`navigations, entryService
      ensures entryService.requests ==
        old(entryService.requests) + SubmitRequests(currentAction == New, entryForm, lookup)
      ensures match SubmitOutcome(currentAction == New, entryForm, lookup, response)
        case Success(id) =>
          && submittingForm && serverErrorMessages == old(serverErrorMessages)
          && alerts == old(alerts) + [SubmitSucceededAlert]
          && navigations == old(navigations) + ReloadAsEdit(id)
        case Failure(e) =>
          && !submittingForm && serverErrorMessages == ServerErrorMessages(e)
          && alerts == old(alerts) + [SubmitFailedAlert]
          && navigations == old(navigations)
    {
      submittingForm := true;
      if currentAction == New {
        CreateEntry(lookup, response);
      } else {
        UpdateEntry(lookup, response);
      }
    }

    method CreateEntry(lookup: Result<Category>, response: Result<EntryData>)
      modifies this`submittingForm, this`serverErrorMessages, this`alerts, this`navigations, entryService
      ensures entryService.requests == old(entryService.requests) + SubmitRequests(true, entryForm, lookup)
      ensures match SubmitOutcome(true, entryForm, lookup, response)
        case Success(id) =>
          && submittingForm == old(submittingForm) && serverErrorMessages == old(serverErrorMessages)
          && alerts == old(alerts) + [SubmitSucceededAlert]
          && navigations == old(navigations) + ReloadAsEdit(id)
        case Failure(e) =>
          && !submittingForm && serverErrorMessages == ServerErrorMessages(e)
          && alerts == old(alerts) + [SubmitFailedAlert]
          && navigations == old(navigations)
    {
      var submitted := new Entry(FormEntryData(entryForm));
      var r := entryService.Create(submitted, lookup, response);
      match r
      case Success(saved) =>
        ActionsForSuccess(saved);
      case Failure(e) =>
        ActionForError(e);
    }

    method UpdateEntry(lookup: Result<Category>, response: Result<EntryData>)
      modifies this`submittingForm, this`serverErrorMessages, this`alerts, this`navigations, entryService
      ensures entryService.requests == old(entryService.requests) + SubmitRequests(false, entryForm, lookup)
      ensures match SubmitOutcome(false, entryForm, lookup, response)
        case Success(id) =>
          && submittingForm == old(submittingForm) && serverErrorMessages == old(serverErrorMessages)
          && alerts == old(alerts) + [SubmitSucceededAlert]
          && navigations == old(navigations) + ReloadAsEdit(id)
        case Failure(e) =>
          && !submittingForm && serverErrorMessages == ServerErrorMessages(e)
          && alerts == old(alerts) + [SubmitFailedAlert]
          && navigations == old(navigations)
    {
      var submitted := new Entry(FormEntryData(entryForm));
      var r := entryService.Update(submitted, lookup, response);
      match r
      case Success(saved) =>
        ActionsForSuccess(saved);
      case Failure(e) =>
        ActionForError(e);
    }

    /** Acknowledges success and reloads the page as the edit page of `saved`. */
    method ActionsForSuccess(saved: Entry)
      modifies this`alerts, this`navigations
      ensures alerts == old(alerts) + [SubmitSucceededAlert]
      ensures navigations == old(navigations) + ReloadAsEdit(saved.id)
    {
      alerts := alerts + [SubmitSucceededAlert];
      navigations := navigations + [NavigateByUrl("entries", true)];
      navigations := navigations + [Navigate([Path("entries"), Param(saved.id), Path("edit")])];
    }

    /** Acknowledges failure, re-enables submitting and shows the server's
        field errors (status 422) or one generic message. */
    method ActionForError(error: HttpError)
      modifies this`alerts, this`submittingForm, this`serverErrorMessages
      ensures alerts == old(alerts) + [SubmitFailedAlert]
      ensures !submittingForm
      ensures serverErrorMessages == ServerErrorMessages(error)
    {
      alerts := alerts + [SubmitFailedAlert];
      submittingForm := false;
      if error.status == 422 {
        serverErrorMessages := error.errors;
      } else {
        serverErrorMessages := [CommunicationFailureMessage];
      }
    }
  }
}
