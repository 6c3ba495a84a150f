/** The category form page: the same mode, title and load logic as the entry
    form, over a smaller field set. The category service's lookup is not part
    of this model; its outcome is a parameter. */
module CategoryForms {
  import opened Results
  import opened Models
  import opened Forms

  const NewCategoryTitle := "Cadastro de nova Categoria"
  const EditCategoryPrefix := "Editando Categoria: "
  const LoadFailedAlert := "Ocorreu um erro no servidor, tente mais tarde."

  /** The category form's controls hold a category's three fields. */
  function CategoryFormGroup(v: Category): seq<Control> {
    [ Control("id", NumberValue(v.id), []),
      Control("name", TextValue(v.name), [Required, MaxLength(2)]),
      Control("description", TextValue(v.description), []) ]
  }

  predicate CategoryFormValid(v: Category) {
    GroupValid(CategoryFormGroup(v))
  }

  /** The category form is valid exactly when a name is given whose `length`
      is one or two. */
  lemma CategoryFormValidity(v: Category)
    ensures CategoryFormValid(v) <==> Filled(v.name) && Utf16Length(v.name.value) <= 2
  {
    var g := CategoryFormGroup(v);
    if CategoryFormValid(v) {
      assert Passes(g[1].value, g[1].validators[0]);
      assert Passes(g[1].value, g[1].validators[1]);
    }
  }

  /** A name of two characters, one of them above U+FFFF, has `length` three
      and is refused. */
  lemma AstralNameRejected()
    ensures !CategoryFormValid(Category(None, Some("a\U{1F600}"), None))
  {
    var name := "a\U{1F600}";
    assert name[1..] == "\U{1F600}";
    assert Utf16Length(name) == 3;
    CategoryFormValidity(Category(None, Some(name), None));
  }

  /** The id and description controls carry no validator. */
  lemma CategoryFormIgnoresIdAndDescription(v: Category, id: Option<int>, description: Option<string>)
    ensures CategoryFormValid(v.(id := id, description := description)) == CategoryFormValid(v)
  {
    CategoryFormValidity(v);
    CategoryFormValidity(v.(id := id, description := description));
  }

  function CategoryTitle(action: Action, name: Option<string>): string {
    PageTitle(action, NewCategoryTitle, EditCategoryPrefix, name)
  }

  /** The title tells the modes apart: no edit title equals the creation title. */
  lemma CategoryTitleShowsMode(action: Action, newName: Option<string>, name: Option<string>)
    requires action != New
    ensures CategoryTitle(New, newName) != CategoryTitle(action, name)
  {
    assert CategoryTitle(New, newName)[0] == 'C';
    assert CategoryTitle(action, name)[..|EditCategoryPrefix|] == EditCategoryPrefix;
  }

  class CategoryFormComponent {
    /** The activated route's URL segments and its parsed `id` parameter. */
    const url: seq<UrlSegment>
    const routeId: int

    var currentAction: Action
    var categoryForm: Category
    var pageTitle: Option<string>
    var submittingForm: bool
    var category: Category
    /** The `alert` messages shown so far, oldest first. */
    var alerts: seq<string>
    /** The ids passed to the category service's `getById` so far, oldest first. */
    var lookups: seq<int>

    constructor (url: seq<UrlSegment>, routeId: int)
      ensures this.url == url && this.routeId == routeId
      ensures currentAction == Undetermined && categoryForm == EmptyCategory && pageTitle == None
      ensures !submittingForm && category == EmptyCategory && alerts == [] && lookups == []
    {
      this.url, this.routeId := url, routeId;
      currentAction, categoryForm, pageTitle := Undetermined, EmptyCategory, None;
      submittingForm, category, alerts, lookups := false, EmptyCategory, [], [];
    }

    method NgOnInit(lookup: Result<Category>)
      requires |url| > 0
      modifies this`currentAction, this`categoryForm, this`category, this`alerts, this`lookups
      ensures currentAction == ActionOf(url)
      ensures currentAction == New ==>
        && categoryForm == EmptyCategory && category == old(category) && alerts == old(alerts)
        && lookups == old(lookups)
      ensures currentAction == Edit ==> lookups == old(lookups) + [routeId]
      ensures currentAction == Edit && lookup.Success? ==>
        category == lookup.value && categoryForm == lookup.value && alerts == old(alerts)
      ensures currentAction == Edit && lookup.Failure? ==>
        && category == old(category) && categoryForm == EmptyCategory
        && alerts == old(alerts) + [LoadFailedAlert]
    {
      SetCurrentAction();
      BuildCategoryForm();
      LoadCategory(lookup);
    }

    /** Run after every content check: the title follows mode and loaded category. */
    method SetPageTitle()
      modifies this`pageTitle
      ensures pageTitle == Some(CategoryTitle(currentAction, category.name))
    {
      pageTitle := Some(CategoryTitle(currentAction, category.name));
    }

    method SetCurrentAction()
      requires |url| > 0
      modifies this`currentAction
      ensures currentAction == New <==> url[0].path == "new"
      ensures currentAction == Edit <==> url[0].path != "new"
    {
      currentAction := ActionOf(url);
    }

    method BuildCategoryForm()
      modifies this`categoryForm
      ensures categoryForm == EmptyCategory
    {
      categoryForm := EmptyCategory;
    }

    /** In edit mode, looks up the route's category; on success it becomes the
        page's category and fills the form, on failure one alert is shown.
        `lookup` is the category service's answer for `routeId`. */
    method LoadCategory(lookup: Result<Category>)
      modifies this`category, this`categoryForm, this`alerts, this`lookups
      ensures currentAction != Edit ==>
        && category == old(category) && categoryForm == old(categoryForm) && alerts == old(alerts)
        && lookups == old(lookups)
      ensures currentAction == Edit ==> lookups == old(lookups) + [routeId]
      ensures currentAction == Edit && lookup.Success? ==>
        category == lookup.value && categoryForm == lookup.value && alerts == old(alerts)
      ensures currentAction == Edit && lookup.Failure? ==>
        && category == old(category) && categoryForm == old(categoryForm)
        && alerts == old(alerts) + [LoadFailedAlert]
    {
      if currentAction == Edit {
        lookups := lookups + [routeId];
        match lookup
        case Success(loaded) =>
          category := loaded;
          categoryForm := loaded;
        case Failure(_) =>
          alerts := alerts + [LoadFailedAlert];
      }
    }
  }
}
