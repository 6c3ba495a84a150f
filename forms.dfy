/** What the two form pages share: Angular's `Validators.required` and
    `Validators.maxLength` on a group of controls, the page mode taken from
    the route, and the page title derived from mode and name. */
module Forms {
  import opened Results

  /** The value a form control holds. */
  datatype ControlValue = Null | Text(text: string) | Number(number: int) | Flag(flag: bool)

  datatype Validator = Required | MaxLength(max: nat)

  /** One control of a form group: its name, value and validators. */
  datatype Control = Control(name: string, value: ControlValue, validators: seq<Validator>)

  function TextValue(o: Option<string>): ControlValue {
    match o
    case Some(s) => Text(s)
    case None => Null
  }

  function NumberValue(o: Option<int>): ControlValue {
    match o
    case Some(n) => Number(n)
    case None => Null
  }

  function FlagValue(o: Option<bool>): ControlValue {
    match o
    case Some(b) => Flag(b)
    case None => Null
  }

  /** Angular treats null and the empty string as an empty input. */
  predicate IsEmptyInput(v: ControlValue) {
    v.Null? || (v.Text? && |v.text| == 0)
  }

  /** JavaScript's `length` of a string: the number of UTF-16 code units, in
      which a character above U+FFFF takes two. */
  function Utf16Length(s: string): (n: nat)
    ensures |s| <= n <= 2 * |s|
    ensures n == 0 <==> s == []
  {
    if s == [] then 0
    else (if s[0] as int >= 0x1_0000 then 2 else 1) + Utf16Length(s[1..])
  }

  /** For text inside the Basic Multilingual Plane the two lengths agree. */
  lemma {:induction false} Utf16LengthBmp(s: string)
    requires forall i :: 0 <= i < |s| ==> s[i] as int < 0x1_0000
    ensures Utf16Length(s) == |s|
  {
    if s != [] {
      Utf16LengthBmp(s[1..]);
    }
  }

  /** Whether one validator accepts a value: `required` rejects empty input;
      `maxLength` rejects only a text whose `length` exceeds its bound. */
  predicate Passes(v: ControlValue, k: Validator) {
    match k
    case Required => !IsEmptyInput(v)
    case MaxLength(max) => !v.Text? || Utf16Length(v.text) <= max
  }

  /** A form group is valid when every validator of every control accepts its value. */
  predicate GroupValid(controls: seq<Control>) {
    forall i, j :: 0 <= i < |controls| && 0 <= j < |controls[i].validators| ==>
      Passes(controls[i].value, controls[i].validators[j])
  }

  /** A nullable text that `required` accepts: present and non-empty. */
  predicate Filled(o: Option<string>) {
    o.Some? && |o.value| > 0
  }

  /** One segment of the activated route's URL. */
  datatype UrlSegment = UrlSegment(path: string)

  /** The page mode; `Undetermined` is the field's value before the mode is set. */
  datatype Action = Undetermined | New | Edit

  /** The mode the first URL segment selects. */
  function ActionOf(url: seq<UrlSegment>): (a: Action)
    requires |url| > 0
    ensures a != Undetermined
    ensures a == New <==> url[0].path == "new"
  {
    if url[0].path == "new" then New else Edit
  }

  /** The page title: the fixed creation title in `New` mode, otherwise the
      edit prefix followed by the loaded record's name (empty when absent). */
  function PageTitle(action: Action, newTitle: string, editPrefix: string, name: Option<string>): (t: string)
    ensures action == New ==> t == newTitle
    ensures action != New ==> |t| == |editPrefix| + |name.GetOr("")|
    ensures action != New ==> t[..|editPrefix|] == editPrefix && t[|editPrefix|..] == name.GetOr("")
  {
    if action == New then newTitle else editPrefix + name.GetOr("")
  }
}
