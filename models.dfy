/** The two records of the application: Category (a value the core never
    changes in place) and Entry (an object whose `category` field the entry
    service overwrites before every write). */
module Models {
  import opened Results

  /** A category label; `id` is assigned by the back end. */
  datatype Category = Category(id: Option<int>, name: Option<string>, description: Option<string>)

  /** `new Category`: every field absent. */
  const EmptyCategory := Category(None, None, None)

  /** The plain-object shape of an entry: what the HTTP back end sends and
      receives, and what `Object.assign` copies field by field. `kind` is the
      record's `type` field (income or expense; no page or service checks
      its value). */
  datatype EntryData = EntryData(
    id: Option<int>,
    name: Option<string>,
    description: Option<string>,
    kind: Option<string>,
    amount: Option<string>,
    date: Option<string>,
    paid: Option<bool>,
    categoryId: Option<int>,
    category: Option<Category>)

  /** The fields of `new Entry`: all absent. In JavaScript they are undefined
      rather than null; only the absence is modelled, and every record the
      back end sends is taken to carry each key, `id` included. */
  const EmptyEntryData := EntryData(None, None, None, None, None, None, None, None, None)

  /** An Entry object. Constructing it from a record is `Object.assign(new Entry, record)`. */
  class Entry {
    var id: Option<int>
    var name: Option<string>
    var description: Option<string>
    var kind: Option<string>
    var amount: Option<string>
    var date: Option<string>
    var paid: Option<bool>
    var categoryId: Option<int>
    var category: Option<Category>

    /** The object's current fields as a record. */
    function Data(): EntryData
      reads this
    {
      EntryData(id, name, description, kind, amount, date, paid, categoryId, category)
    }

    constructor (data: EntryData)
      ensures Data() == data
    {
      id, name, description, kind := data.id, data.name, data.description, data.kind;
      amount, date, paid := data.amount, data.date, data.paid;
      categoryId, category := data.categoryId, data.category;
    }
  }

  /** No object occurs twice in the list. */
  predicate Distinct(s: seq<Entry>) {
    forall i, j :: 0 <= i < j < |s| ==> s[i] != s[j]
  }

  /** A list holds no object twice exactly when every object occurs in it at
      most once. */
  lemma {:induction false} DistinctCounts(s: seq<Entry>)
    ensures Distinct(s) <==> forall e :: multiset(s)[e] <= 1
  {
    if s != [] {
      DistinctCounts(s[1..]);
      assert s == [s[0]] + s[1..];
      if Distinct(s) {
        assert s[0] !in s[1..];
      }
      if forall e :: multiset(s)[e] <= 1 {
        assert multiset(s)[s[0]] == multiset(s[1..])[s[0]] + 1;
        assert forall e :: multiset(s[1..])[e] <= multiset(s)[e];
        forall i, j | 0 <= i < j < |s|
          ensures s[i] != s[j]
        {
          assert s[j] == s[1..][j - 1];
          if i > 0 {
            assert s[i] == s[1..][i - 1];
          }
        }
      }
    }
  }

  /** The records of a list of Entry objects, element by element. */
  function Datas(s: seq<Entry>): (r: seq<EntryData>)
    reads s
    ensures |r| == |s|
  {
    if s == [] then [] else [s[0].Data()] + Datas(s[1..])
  }

  lemma {:induction false} DatasAt(s: seq<Entry>, i: nat)
    requires i < |s|
    ensures Datas(s)[i] == s[i].Data()
  {
    if i > 0 {
      DatasAt(s[1..], i - 1);
    }
  }

  lemma DatasCons(e: Entry, s: seq<Entry>)
    ensures Datas([e] + s) == [e.Data()] + Datas(s)
  {
    assert ([e] + s)[1..] == s;
  }

  lemma {:induction false} DatasAppend(s: seq<Entry>, e: Entry)
    ensures Datas(s + [e]) == Datas(s) + [e.Data()]
  {
    if s != [] {
      assert (s + [e])[1..] == s[1..] + [e];
      DatasAppend(s[1..], e);
    }
  }
}
