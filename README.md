# Personal-finance pages: entry and category forms, entry service, entry list

This project models, in Dafny, the sequential core of a small Angular
application that records income and expense entries, each tagged with a
category:

- **the entry form page** (`EntryFormComponent`): it picks `new` or `edit`
  mode from the first URL segment. It derives the page title, declares a
  field set with `required` and `maxLength(2)` rules, and loads the entry in
  edit mode. On submit it creates or updates the entry, then reloads itself
  as the edit page of the saved entry or shows the server's errors;
- **the entry service** (`EntryService`): `create` and `update` first look up
  the entry's category and store it in the entry object, and only then write.
  `update` answers with the submitted object itself. Records from the back end
  become Entry objects one by one. Errors travel on unchanged;
- **the category form page** (`CategoryFormComponent`): the same mode, title
  and load logic, over an id/name/description field set;
- **the entry list page** (`EntryListComponent`): it sorts the loaded entries
  by id, largest first. After a confirmed, successful delete it drops the
  deleted object from the list.

Framework services become values:

- **HTTP back end.** Each HTTP response is a `Result` parameter. A
  `Success` carries the parsed body; a `Failure` carries an `HttpError` with a
  status and an already parsed `errors` list.
- **Requests.** Every request the entry service issues is appended to
  `EntryService.requests`. That log includes the category service's lookup,
  which is `CategoryLookup(categoryId)`.
- **Category lookup.** The outcome of the category service's `getById` is a
  parameter.
- **Route.** The activated route is a non-empty sequence of URL segments plus
  an already parsed integer `id`. These are constants given to the page's
  constructor.
- **Outputs.** `alert` calls and router navigations are appended to `alerts`
  and `navigations`. `confirm` is a boolean parameter.
- **Sequential steps.** Each observable pipeline becomes one sequential step.
  A later step runs only when the earlier one succeeded.

Files: `results.dfy` (nullable values, results, HTTP errors), `text.dfy` (how
JavaScript writes an integer id into a URL), `models.dfy` (Category, the
Entry record and the Entry class), `forms.dfy` (Angular's validators, page
mode, page title), `entry_service.dfy`, `entry_form.dfy`, `category_form.dfy`,
`entry_list.dfy`.

Modelling decisions:

- Entry is a class because the service overwrites `entry.category` in
  place. `update` returns that same object, and the list filters by
  reference (`!==`). Category is a datatype because the core only reads and
  assigns categories.
- `Validators.required` rejects `null` and the empty string; `false` passes.
  "Present" below therefore means non-null and, for a text field, non-empty.
  `Validators.maxLength(2)` rejects only a text whose JavaScript `length`
  exceeds two. That length counts UTF-16 code units, so a character above
  U+FFFF counts twice (`Utf16Length`).
- `patchValue` and `Object.assign` are field-wise copies. Patching the form
  with a loaded record sets every control to the record's field of the same
  name.
- The sort comparator `b.id - a.id` subtracts a null id as 0, so `SortKey`
  is `id` with null read as 0. `Array.prototype.sort` is a library call: it
  is modelled by a stable insertion sort written as a function.
- A null id is written into a URL as `null`, as a JavaScript template
  string does.
- Both forms' mode is `Undetermined` before `setCurrentAction` runs; this
  stands for the undefined field. In that state the title is the edit
  title, and `submitForm` takes the update branch, as the code's tests
  against `'new'` do.

The code differs from a first reading of the application in these ways:

- The code initialises every control, `type` and `paid` included, to null.
  It sets no default.
- The code checks `type` only for presence, not against the two entry types.
- `submitForm` does not check validity itself. Blocking an invalid submit is
  left to the page template, which is outside the model.
- The entry form in the code loads no category list.
- Errors are not mapped to a typed error. `handleError` re-raises the error
  it received.

## Model

| member | source | states |
|---|---|---|
| `Text.IntText` | src/app/pages/entries/shared/entry.service.ts:33 | an integer renders with a minus sign exactly when it is negative, followed by decimal digits that read back as its magnitude |
| `Text.IdText` | src/app/pages/entries/shared/entry.service.ts:56 | a null id renders as `null`, and no number renders as `null` |
| `Text.IntTextInjective` | src/app/pages/entries/shared/entry.service.ts:33 | two integer ids written into a URL give the same text only if they are equal (the decimal text reads back to the number) |
| `Text.IdTextInjective` | src/app/pages/entries/shared/entry.service.ts:56 | the same for nullable ids: `null` and every number give distinct texts |
| `EntryServices.ItemUrl` | src/app/pages/entries/shared/entry.service.ts:33 | an entry's URL is `api/entries/` followed by its id's text |
| `EntryServices.ItemUrlInjective` | src/app/pages/entries/shared/entry.service.ts:71 | distinct ids address distinct entry URLs, so `getById`, `update` and `delete` reach exactly the entry whose id they were given |
| `Models.DistinctCounts` | src/app/pages/entries/shared/entry.service.ts:88-91 | a list of objects has no repeats exactly when each object occurs in it at most once |
| `Models.Entry.constructor` | src/app/pages/entries/shared/entry.service.ts:95-97 | `Object.assign(new Entry, record)`: the new object's fields are exactly the record's |
| `EntryServices.HandleError` | src/app/pages/entries/shared/entry.service.ts:99-102 | the error is passed on as a failure, unchanged |
| `EntryServices.EntryService.constructor` | src/app/pages/entries/shared/entry.service.ts:19-22 | a new service has issued no request |
| `EntryServices.EntryService.GetAll` | src/app/pages/entries/shared/entry.service.ts:25-30 | one GET to `api/entries`; a failure comes back as the same error; a success gives fresh, pairwise distinct Entry objects whose records are the response's, in order |
| `EntryServices.EntryService.GetById` | src/app/pages/entries/shared/entry.service.ts:32-39 | one GET to `api/entries/<id>`; the same error on failure; a fresh Entry holding the response record on success |
| `EntryServices.EntryService.Create` | src/app/pages/entries/shared/entry.service.ts:41-53 | the category lookup is issued first; if it fails, no POST is sent, the entry is untouched and the lookup's error is the result; otherwise `entry.category` becomes the looked-up category, then a POST to `api/entries` carries exactly that entry's record, and the result is the back end's error or a fresh Entry built from its reply |
| `EntryServices.EntryService.Update` | src/app/pages/entries/shared/entry.service.ts:55-68 | the same lookup-before-write order with a PUT to `api/entries/<entry.id>`; on success the result is the submitted object itself, now carrying the looked-up category, and the reply's body is discarded |
| `EntryServices.EntryService.Delete` | src/app/pages/entries/shared/entry.service.ts:70-77 | one DELETE to `api/entries/<id>`; the same error on failure; an empty success value otherwise |
| `EntryServices.EntryService.JsonDataToEntries` | src/app/pages/entries/shared/entry.service.ts:82-93 | one new Entry object per input record: the objects are fresh and pairwise distinct, and element i holds record i |
| `EntryServices.EntryService.JsonDataToEntry` | src/app/pages/entries/shared/entry.service.ts:95-97 | a fresh Entry holding the given record |
| `Forms.Utf16Length` | src/app/pages/entries/entry-form/entry-form.component.ts:67 | the `length` that `maxLength` compares: between the number of characters and twice that, and zero only for the empty text |
| `Forms.Utf16LengthBmp` | src/app/pages/entries/entry-form/entry-form.component.ts:67 | for text with no character above U+FFFF, `length` is the number of characters |
| `Forms.ActionOf` | src/app/pages/entries/entry-form/entry-form.component.ts:55-62 | the mode is `new` exactly when the first URL segment is `"new"`, and never undetermined |
| `Forms.PageTitle` | src/app/pages/entries/entry-form/entry-form.component.ts:39-47 | in `new` mode the title is the creation title; in any other mode it is the edit prefix followed by the name, or by nothing when the name is null, so the name, with null read as empty, can be read back from the title |
| `EntryForms.EntryTitleShowsMode` | src/app/pages/entries/entry-form/entry-form.component.ts:39-47 | no edit-mode title equals the creation title |
| `EntryForms.EntryFormValidity` | src/app/pages/entries/entry-form/entry-form.component.ts:64-75 | the entry form is valid if and only if name, type, amount, date, paid and categoryId are present and the name's `length` (UTF-16 code units) is at most 2 |
| `EntryForms.BlankEntryFormInvalid` | src/app/pages/entries/entry-form/entry-form.component.ts:66-73 | the form as built, with every control null, is invalid |
| `EntryForms.EntryFormIgnoresIdAndDescription` | src/app/pages/entries/entry-form/entry-form.component.ts:66-68 | changing id or description never changes the entry form's validity |
| `EntryForms.PatchedFormRoundTrip` | src/app/pages/entries/entry-form/entry-form.component.ts:85 | patching the form with a record and reading the form back gives that record, less the category the form has no control for |
| `EntryForms.FormEntryData` | src/app/pages/entries/entry-form/entry-form.component.ts:104 | the entry built from the form has no category, and patching a form with it gives back the same form values |
| `EntryForms.ServerErrorMessages` | src/app/pages/entries/entry-form/entry-form.component.ts:132-137 | status 422 shows the body's `errors` list unchanged; any other status shows exactly the one generic message |
| `EntryForms.ReloadAsEdit` | src/app/pages/entries/entry-form/entry-form.component.ts:121-122 | two navigations: first one that skips the history, then one whose commands carry the saved id |
| `EntryForms.SubmitRequests` | src/app/pages/entries/entry-form/entry-form.component.ts:92-101 | a submission issues the category lookup first; it issues exactly one write only if the lookup succeeds: a POST to `api/entries` when creating, a PUT to `api/entries/<form id>` otherwise; the written record is the form's fields with the looked-up category |
| `EntryForms.SubmitOutcome` | src/app/pages/entries/entry-form/entry-form.component.ts:103-111 | a submission succeeds if and only if lookup and write both succeed; a failed lookup's error is the outcome, and so is a failed write's; the saved id is the back end's for a create and the form's own for an update |
| `EntryForms.EntryFormComponent.constructor` | src/app/pages/entries/entry-form/entry-form.component.ts:21-26 | the page starts with no error messages, not submitting, an empty Entry, mode undetermined and nothing alerted or navigated |
| `EntryForms.EntryFormComponent.NgOnInit` | src/app/pages/entries/entry-form/entry-form.component.ts:49-53 | sets the mode from the URL and builds the blank form, then loads the route's entry only in edit mode |
| `EntryForms.EntryFormComponent.SetPageTitle` | src/app/pages/entries/entry-form/entry-form.component.ts:35-47 | the title is the one for the current mode and the current entry's name; nothing else changes |
| `EntryForms.EntryFormComponent.SetCurrentAction` | src/app/pages/entries/entry-form/entry-form.component.ts:55-62 | the mode is `new` exactly when the first URL segment's path is `"new"`, and `edit` otherwise |
| `EntryForms.EntryFormComponent.BuildEntryForm` | src/app/pages/entries/entry-form/entry-form.component.ts:64-75 | every control of the built form is null |
| `EntryForms.EntryFormComponent.LoadEntry` | src/app/pages/entries/entry-form/entry-form.component.ts:77-90 | outside edit mode nothing happens and no request is sent; in edit mode one GET for the route id is sent; success makes the fetched entry the page's entry and patches the form with its fields; failure leaves entry and form as they were and shows one alert |
| `EntryForms.EntryFormComponent.SubmitForm` | src/app/pages/entries/entry-form/entry-form.component.ts:92-101 | the page issues exactly the requests of `SubmitRequests` for its mode (create in `new` mode, update otherwise, never both); on success it stays submitting, shows one success alert and navigates to `entries` without history and then to `['entries', id, 'edit']` for the saved id; on failure it stops submitting, shows one failure alert and sets the messages of `ServerErrorMessages` |
| `EntryForms.EntryFormComponent.CreateEntry` | src/app/pages/entries/entry-form/entry-form.component.ts:103-111 | creates from the form's fields; success and failure are handled as for `SubmitForm`, with the back end's id |
| `EntryForms.EntryFormComponent.UpdateEntry` | src/app/pages/entries/entry-form/entry-form.component.ts:140-148 | updates from the form's fields; success navigates to the edit page of the form's own id |
| `EntryForms.EntryFormComponent.ActionsForSuccess` | src/app/pages/entries/entry-form/entry-form.component.ts:113-124 | one success alert, then the navigation to `entries` without a history entry, then the navigation to `['entries', saved.id, 'edit']`; nothing else changes |
| `EntryForms.EntryFormComponent.ActionForError` | src/app/pages/entries/entry-form/entry-form.component.ts:126-138 | one failure alert; submitting becomes false; the messages are the body's `errors` for status 422 and the single generic message otherwise |
| `CategoryForms.CategoryFormValidity` | src/app/pages/categories/category-form/category-form.component.ts:65-71 | the category form is valid if and only if the name is present and its `length` (UTF-16 code units) is at most 2 |
| `CategoryForms.AstralNameRejected` | src/app/pages/categories/category-form/category-form.component.ts:68 | the two-character name `a😀` has `length` three and makes the form invalid |
| `CategoryForms.CategoryFormIgnoresIdAndDescription` | src/app/pages/categories/category-form/category-form.component.ts:66-70 | changing id or description never changes the category form's validity |
| `CategoryForms.CategoryTitleShowsMode` | src/app/pages/categories/category-form/category-form.component.ts:39-47 | no edit-mode category title equals the creation title |
| `CategoryForms.CategoryFormComponent.constructor` | src/app/pages/categories/category-form/category-form.component.ts:21-26 | the page starts not submitting, with an empty Category, mode undetermined, no alert and no lookup |
| `CategoryForms.CategoryFormComponent.NgOnInit` | src/app/pages/categories/category-form/category-form.component.ts:49-53 | sets the mode from the URL and builds the blank form; only in edit mode does it look up the route's `id` (recorded in `lookups`) and load the category |
| `CategoryForms.CategoryFormComponent.SetPageTitle` | src/app/pages/categories/category-form/category-form.component.ts:35-47 | the title is the one for the current mode and the current category's name |
| `CategoryForms.CategoryFormComponent.SetCurrentAction` | src/app/pages/categories/category-form/category-form.component.ts:55-63 | the mode is `new` exactly when the first URL segment's path is `"new"`, and `edit` otherwise |
| `CategoryForms.CategoryFormComponent.BuildCategoryForm` | src/app/pages/categories/category-form/category-form.component.ts:65-71 | every control of the built form is null |
| `CategoryForms.CategoryFormComponent.LoadCategory` | src/app/pages/categories/category-form/category-form.component.ts:73-86 | outside edit mode nothing changes and no lookup is made; in edit mode one lookup of the route's `id` is recorded, a found category becomes the page's category and the form's value; a failed lookup leaves both and shows one alert |
| `EntryLists.SortKey` | src/app/pages/entries/entry-list/entry-list.component.ts:20 | the comparator's key is the id, with a null id read as 0 |
| `EntryLists.SortDesc` | src/app/pages/entries/entry-list/entry-list.component.ts:20 | the sorted list is a permutation of the fetched one |
| `EntryLists.SortDescSorted` | src/app/pages/entries/entry-list/entry-list.component.ts:20 | the sorted list's ids never increase from front to back |
| `EntryLists.SortDescDatas` | src/app/pages/entries/entry-list/entry-list.component.ts:20 | sorting rearranges the entries' records without adding or dropping one |
| `EntryLists.LoadedOrder` | src/app/pages/entries/entry-list/entry-list.component.ts:19-20 | what a successful load keeps is sorted, holds the fetched records up to order, holds only fetched objects, and has no repeated object when the fetched list had none |
| `EntryLists.PermutationDistinct` | src/app/pages/entries/entry-list/entry-list.component.ts:20 | sorting a list without repeated objects cannot create a repeat |
| `EntryLists.Without` | src/app/pages/entries/entry-list/entry-list.component.ts:29 | the filtered list is no longer than the original, holds only its elements, and never the deleted object |
| `EntryLists.WithoutDistinct` | src/app/pages/entries/entry-list/entry-list.component.ts:29 | in a list without repeats, filtering out an object it holds removes exactly one element, and the result has no repeats |
| `EntryLists.WithoutMultiset` | src/app/pages/entries/entry-list/entry-list.component.ts:29 | the filter removes every occurrence of the deleted object and keeps every other object as often as it occurred |
| `EntryLists.WithoutConcat` | src/app/pages/entries/entry-list/entry-list.component.ts:29 | the filter works piece by piece, so the kept objects keep their relative order |
| `EntryLists.WithoutAbsent` | src/app/pages/entries/entry-list/entry-list.component.ts:29 | deleting an object the list does not hold leaves the list as it was |
| `EntryLists.EntryListComponent.constructor` | src/app/pages/entries/entry-list/entry-list.component.ts:14-16 | the list starts empty with no alert |
| `EntryLists.EntryListComponent.NgOnInit` | src/app/pages/entries/entry-list/entry-list.component.ts:18-23 | one GET to `api/entries`; on success the list is sorted by id, largest first, its records are a permutation of the response's, and no object occurs twice; on failure the list is unchanged and one alert is shown |
| `EntryLists.EntryListComponent.DeleteEntry` | src/app/pages/entries/entry-list/entry-list.component.ts:25-33 | without confirmation no request is sent and nothing changes; with it one DELETE to the entry's own id is sent; success leaves the old list without the deleted object, which in a list without repeats removes exactly one element and keeps it free of repeats; failure leaves the list unchanged and shows one alert |

## Left out

- HTTP transport, rxjs streams and asynchrony: each call is one sequential step, and its outcome is a parameter. Overlapping requests and a request that never answers are not modelled.
- The category service (`CategoryService.getById`) is not part of this model: its outcome is a parameter, and the entry service logs the lookup as `CategoryLookup`.
- Router semantics: navigations are recorded values, and `skipLocationChange` is kept only as a recorded flag. Parsing the route `id` with `+string`, and the NaN it can give, is outside the model.
- `alert`, `confirm` and `console.log` in `handleError`: alerts are recorded strings, confirmation is a boolean parameter, and logging is dropped.
- `JSON.parse(error._body)`: the error already carries its parsed `errors` list. A body that does not parse, or lacks `errors`, is not modelled.
- The `ngAfterContentChecked` hook: the page title is modelled as the value `setPageTitle` computes, not when Angular runs the hook.
- FormBuilder beyond the `required` and `maxLength` checks, and the templates, CSS and decorators.
- The forms are modelled as existing from construction, with all controls null. Before `ngOnInit`, the code's form field is undefined.
- The category form's `_serverErrorMessages` field: it is declared and never used.
- Strings here are sequences of Unicode scalar values, so a JavaScript string holding an unpaired surrogate cannot be written down; `Utf16Length` gives every other string's `length`.
- `None` stands for JSON `null`. A record without an `id` key, whose id is `undefined` in JavaScript, is not modelled: the comparator `b.id - a.id` then gives NaN, which leaves the sort order to the engine, and the URL then ends in `undefined`, not `null`. The back end is taken to send every id, so `EntryLists.SortKey`, `EntryLists.EntryListComponent.NgOnInit` and `EntryServices.ItemUrl` cover null and numeric ids only.
- JavaScript numbers are doubles. Ids are unbounded integers here, written in plain decimal; the exponent notation JavaScript uses from 1e21 on is not modelled.
- `EntryLists.SortDesc`: its contract states permutation and descending order, not stability, although the insertion sort it uses is stable.
- Category list loading, the entry-type options helper and default values for `type`/`paid` do not appear in these components' code, so they are not modelled.
