/**
 * The template table: `load_templates` builds it once from `templates.json`,
 * `get_template_config` looks an id up, and `GET /templates` lists it by id.
 */
module Templates {
  import opened Wrappers
  import opened Json
  import opened Errors
  import Text

  /**
   * One object of the `templates` array of `templates.json`: `templateId` is `None` when the
   * key is missing; the other keys may also hold `null`, which the service passes on as `None`.
   */
  datatype Template = Template(
    templateId: Option<int>,
    name: Field<string>,
    appId: Field<string>,
    versionId: Field<string>,
    cnetFormId: Field<string>,
    templateImage: Field<string>,
    otherKeys: bool)
  {
    /** The object has no key at all: the only way a dict is falsy. */
    predicate IsEmpty()
      ensures IsEmpty() <==> this == Template(None, Absent, Absent, Absent, Absent, Absent, false)
    {
      templateId.None? && name.Absent? && appId.Absent? && versionId.Absent? && cnetFormId.Absent? &&
      templateImage.Absent? && !otherKeys
    }
  }

  /** What reading and decoding `templates.json` gives. */
  datatype TemplateFile =
    | Unreadable                                  // missing, unreadable, or not JSON
    | Decoded(templates: Field<seq<Template>>)    // the top-level `templates` key

  /**
   * A Python dict from template id to template: its items in insertion order. Assigning to a
   * key already present replaces the value in place; a new key goes at the end.
   */
  type Table = seq<(int, Template)>

  predicate DistinctKeys(table: Table) {
    forall i, j :: 0 <= i < j < |table| ==> table[i].0 != table[j].0
  }

  /** The table is a dict keyed by each entry's own `template_id`. */
  predicate ValidTable(table: Table) {
    DistinctKeys(table) && forall i :: 0 <= i < |table| ==> table[i].1.templateId == Some(table[i].0)
  }

  /** The position of key `k`, or -1. */
  function IndexOf(table: Table, k: int): (r: int)
    ensures -1 <= r < |table|
    ensures r >= 0 ==> table[r].0 == k
    ensures r < 0 ==> forall i :: 0 <= i < |table| ==> table[i].0 != k
  {
    if table == [] then -1
    else if table[|table| - 1].0 == k then |table| - 1
    else IndexOf(table[..|table| - 1], k)
  }

  /** `table.get(k)`. */
  function Lookup(table: Table, k: int): (r: Option<Template>)
    ensures r.Some? ==> (k, r.value) in table
    ensures r.None? ==> forall i :: 0 <= i < |table| ==> table[i].0 != k
  {
    var i := IndexOf(table, k);
    if i < 0 then None else Some(table[i].1)
  }

  /** In a dict, the value stored under a key is the one its lookup returns. */
  lemma LookupFindsItem(table: Table, i: int)
    requires DistinctKeys(table) && 0 <= i < |table|
    ensures Lookup(table, table[i].0) == Some(table[i].1)
  {
  }

  /** `table[k] = t`: the key keeps its place if present, and goes at the end if not. */
  function Put(table: Table, k: int, t: Template): (r: Table)
    requires DistinctKeys(table)
    ensures DistinctKeys(r)
    ensures forall p :: p in r ==> p in table || p == (k, t)
  {
    var i := IndexOf(table, k);
    if i < 0 then table + [(k, t)] else table[i := (k, t)]
  }

  /** After `table[k] = t`, `k` reads back `t` and every other key reads what it read before. */
  lemma PutLookup(table: Table, k: int, t: Template, k': int)
    requires DistinctKeys(table)
    ensures Lookup(Put(table, k, t), k') == if k' == k then Some(t) else Lookup(table, k')
  {
    var r := Put(table, k, t);
    var i := IndexOf(table, k);
    if i < 0 {
      if k' == k {
        LookupFindsItem(r, |table|);
      } else {
        assert r[..|r| - 1] == table;
      }
    } else if k' == k {
      LookupFindsItem(r, i);
    } else {
      var j := IndexOf(table, k');
      if j >= 0 {
        LookupFindsItem(table, j);
        LookupFindsItem(r, j);
      } else {
        assert forall m :: 0 <= m < |r| ==> r[m].0 != k';
      }
    }
  }

  /**
   * `{t['template_id']: t for t in entries}`: `None` when an entry has no `template_id`
   * (the KeyError aborts the comprehension).
   */
  function BuildTable(entries: seq<Template>): (r: Option<Table>)
    ensures r.Some? ==> ValidTable(r.value)
  {
    if entries == [] then Some([])
    else
      var front := entries[..|entries| - 1];
      var last := entries[|entries| - 1];
      var table := BuildTable(front);
      if table.Some? && last.templateId.Some? then
        PutKeepsValid(table.value, last.templateId.value, last);
        Some(Put(table.value, last.templateId.value, last))
      else None
  }

  /** The comprehension completes exactly when every entry has a `template_id`. */
  lemma {:induction false} BuildTableSucceedsIff(entries: seq<Template>)
    ensures BuildTable(entries).Some? <==> forall i :: 0 <= i < |entries| ==> entries[i].templateId.Some?
  {
    if entries != [] {
      var front := entries[..|entries| - 1];
      assert forall i :: 0 <= i < |front| ==> front[i] == entries[i];
      BuildTableSucceedsIff(front);
    }
  }

  /** Storing an entry under its own id keeps the table keyed by its entries' ids. */
  lemma PutKeepsValid(table: Table, k: int, t: Template)
    requires ValidTable(table) && t.templateId == Some(k)
    ensures ValidTable(Put(table, k, t))
  {
    var r := Put(table, k, t);
    forall i | 0 <= i < |r| ensures r[i].1.templateId == Some(r[i].0) {
      assert r[i] in r;
      if r[i] != (k, t) {
        var j :| 0 <= j < |table| && table[j] == r[i];
      }
    }
  }

  /** `load_templates()`: any failure (unreadable file, no `templates` list, an entry without id) gives `{}`. */
  function LoadTemplates(file: TemplateFile): (table: Table)
    ensures ValidTable(table)
    ensures table != [] ==>
      (file.Decoded? && file.templates.Value? && BuildTable(file.templates.value) == Some(table))
  {
    match file
    case Decoded(Value(entries)) => BuildTable(entries).GetOr([])
    case _ => []
  }

  /** The position of the last entry carrying `id`, or -1. */
  function LastWithId(entries: seq<Template>, id: int): (r: int)
    ensures -1 <= r < |entries|
    ensures r >= 0 ==> entries[r].templateId == Some(id)
    ensures forall j :: r < j < |entries| ==> entries[j].templateId != Some(id)
  {
    if entries == [] then -1
    else if entries[|entries| - 1].templateId == Some(id) then |entries| - 1
    else LastWithId(entries[..|entries| - 1], id)
  }

  /**
   * The table holds, under each id, the LAST entry carrying that id (a later duplicate
   * overrides an earlier one), and holds nothing under an id no entry carries.
   */
  lemma {:induction false} TableHoldsLastEntry(entries: seq<Template>, id: int)
    requires BuildTable(entries).Some?
    ensures var last := LastWithId(entries, id);
      Lookup(BuildTable(entries).value, id) == if last < 0 then None else Some(entries[last])
  {
    if entries != [] {
      var n := |entries| - 1;
      var front := entries[..n];
      var table := BuildTable(front).value;
      assert BuildTable(entries).value == Put(table, entries[n].templateId.value, entries[n]);
      PutLookup(table, entries[n].templateId.value, entries[n], id);
      if entries[n].templateId != Some(id) {
        TableHoldsLastEntry(front, id);
        var last := LastWithId(front, id);
        assert last >= 0 ==> entries[last] == front[last];
      }
    }
  }

  /**
   * `get_template_config(template_id)`: the stored entry for a present id, `None` for an absent one
   * (an entry of a valid table always has its id, so it is never an empty, falsy dict).
   */
  function GetTemplateConfig(table: Table, id: int): (r: Option<Template>)
    requires ValidTable(table)
    ensures r == Lookup(table, id)
    ensures r.Some? ==> r.value.templateId == Some(id)
  {
    match Lookup(table, id)
    case Some(t) => if t.IsEmpty() then None else Some(t)
    case None => None
  }

  /** A lookup after a successful load finds the last entry with that id, and nothing if none has it. */
  lemma LookupAfterLoad(entries: seq<Template>, id: int)
    requires forall i :: 0 <= i < |entries| ==> entries[i].templateId.Some?
    ensures var r := GetTemplateConfig(LoadTemplates(Decoded(Value(entries))), id);
      && (r.None? <==> forall i :: 0 <= i < |entries| ==> entries[i].templateId != Some(id))
      && (r.Some? ==>
            exists i :: 0 <= i < |entries| && entries[i] == r.value && entries[i].templateId == Some(id) &&
              forall j :: i < j < |entries| ==> entries[j].templateId != Some(id))
  {
    BuildTableSucceedsIff(entries);
    TableHoldsLastEntry(entries, id);
    var last := LastWithId(entries, id);
    if last >= 0 {
      assert entries[last].templateId == Some(id);
    }
  }

  /** A failed load leaves every template id unknown. */
  lemma LookupAfterFailedLoad(file: TemplateFile, id: int)
    requires file.Unreadable? || !file.templates.Value? ||
      exists i :: 0 <= i < |file.templates.value| && file.templates.value[i].templateId.None?
    ensures LoadTemplates(file) == []
    ensures GetTemplateConfig(LoadTemplates(file), id).None?
  {
    if file.Decoded? && file.templates.Value? {
      BuildTableSucceedsIff(file.templates.value);
    }
  }

  /** The name shown for a template that has none: `f'模板 {template_id}'`. */
  function DefaultName(id: int): (name: string)
    ensures |name| > 3 && name[..3] == "模板 " && name[3..] == Text.IntToString(id)
  {
    "模板 " + Text.IntToString(id)
  }

  /** `template.get('name', f'模板 {template_id}')`: a missing name is defaulted, a `null` one stays `None`. */
  function TemplateName(t: Template, id: int): (name: Option<string>)
    ensures t.name.Absent? ==> name == Some(DefaultName(id))
    ensures !t.name.Absent? ==> name == t.name.Get()
  {
    if t.name.Absent? then Some(DefaultName(id)) else t.name.Get()
  }

  /** The three provider ids a template supplies (`None` for a JSON `null`). */
  datatype Ids = Ids(appId: Option<string>, versionId: Option<string>, cnetFormId: Option<string>)

  /**
   * `template['app_id']`, `template['version_id']`, `template['cnet_form_id']` in that order:
   * the first missing key raises `KeyError`.
   */
  function TemplateIds(t: Template): (r: Result<Ids, Raised>)
    ensures r.Success? <==> !t.appId.Absent? && !t.versionId.Absent? && !t.cnetFormId.Absent?
    ensures r.Success? ==> r.value == Ids(t.appId.Get(), t.versionId.Get(), t.cnetFormId.Get())
    ensures t.appId.Absent? ==> r == Failure(PyException(KeyErrorText("app_id")))
    ensures !t.appId.Absent? && t.versionId.Absent? ==> r == Failure(PyException(KeyErrorText("version_id")))
    ensures !t.appId.Absent? && !t.versionId.Absent? && t.cnetFormId.Absent? ==>
      r == Failure(PyException(KeyErrorText("cnet_form_id")))
  {
    if t.appId.Absent? then Failure(PyException(KeyErrorText("app_id")))
    else if t.versionId.Absent? then Failure(PyException(KeyErrorText("version_id")))
    else if t.cnetFormId.Absent? then Failure(PyException(KeyErrorText("cnet_form_id")))
    else Success(Ids(t.appId.Get(), t.versionId.Get(), t.cnetFormId.Get()))
  }

  predicate StrictlyAscending(table: Table) {
    forall i, j :: 0 <= i < j < |table| ==> table[i].0 < table[j].0
  }

  /** Places `item` among the ascending items of `sorted`. */
  function InsertByKey(item: (int, Template), sorted: Table): (r: Table)
    requires StrictlyAscending(sorted)
    requires forall p :: p in sorted ==> p.0 != item.0
    ensures StrictlyAscending(r)
    ensures |r| == |sorted| + 1
    ensures forall p :: p in r <==> p == item || p in sorted
  {
    if sorted == [] then [item]
    else if item.0 < sorted[0].0 then
      [item] + sorted
    else
      var rest := InsertByKey(item, sorted[1..]);
      assert forall p :: p in sorted <==> p == sorted[0] || p in sorted[1..] by {
        assert sorted == [sorted[0]] + sorted[1..];
      }
      assert forall j :: 0 <= j < |rest| ==> sorted[0].0 < rest[j].0 by {
        forall j | 0 <= j < |rest| ensures sorted[0].0 < rest[j].0 {
          assert rest[j] in rest;
          if rest[j] != item {
            var m :| 0 <= m < |sorted[1..]| && sorted[1..][m] == rest[j];
            assert sorted[m + 1] == rest[j];
          }
        }
      }
      [sorted[0]] + rest
  }

  /** `sorted(table.items())`: the items by ascending key (the keys are distinct, so values are never compared). */
  function SortByKey(table: Table): (r: Table)
    requires DistinctKeys(table)
    ensures StrictlyAscending(r)
    ensures |r| == |table|
    ensures forall p :: p in r <==> p in table
  {
    if table == [] then []
    else
      var rest := table[1..];
      assert DistinctKeys(rest) by {
        assert forall i :: 0 <= i < |rest| ==> rest[i] == table[i + 1];
      }
      var sortedRest := SortByKey(rest);
      assert forall p :: p in rest ==> p.0 != table[0].0 by {
        forall p | p in rest ensures p.0 != table[0].0 {
          var j :| 0 <= j < |rest| && rest[j] == p;
          assert table[j + 1] == p;
        }
      }
      assert forall p :: p in table <==> p == table[0] || p in rest by {
        assert table == [table[0]] + rest;
      }
      InsertByKey(table[0], sortedRest)
  }

  /** One object of the listing. */
  datatype ListedTemplate = ListedTemplate(
    templateId: int,
    name: Option<string>,
    appId: Option<string>,
    versionId: Option<string>,
    cnetFormId: Option<string>,
    templateImage: Option<string>)

  /** The body of a successful `GET /templates` (its `status` is always `"success"`). */
  datatype Listing = Listing(count: int, templates: seq<ListedTemplate>)

  /** The listing object for one table entry; raises `KeyError` like `TemplateIds`. */
  function ListEntry(id: int, t: Template): (r: Result<ListedTemplate, Raised>)
    ensures r.Success? <==> TemplateIds(t).Success?
    ensures r.Failure? ==> r.error == TemplateIds(t).error
    ensures r.Success? ==>
      && r.value.templateId == id && r.value.name == TemplateName(t, id)
      && r.value.appId == t.appId.Get() && r.value.versionId == t.versionId.Get()
      && r.value.cnetFormId == t.cnetFormId.Get() && r.value.templateImage == t.templateImage.Get()
  {
    var ids :- TemplateIds(t);
    Success(ListedTemplate(id, TemplateName(t, id), ids.appId, ids.versionId, ids.cnetFormId,
                           t.templateImage.Get()))
  }

  /** Item `i` is the first of `items` whose ids cannot be read, and reading them raises `e`. */
  predicate FirstFailureAt(items: Table, i: int, e: Raised) {
    && 0 <= i < |items| && TemplateIds(items[i].1) == Failure(e)
    && forall j :: 0 <= j < i ==> TemplateIds(items[j].1).Success?
  }

  /**
   * The list comprehension over `items`, in order; the first entry that raises aborts it,
   * and its `KeyError` is what propagates.
   */
  function ListEntries(items: Table): (r: Result<seq<ListedTemplate>, Raised>)
    ensures r.Success? <==> forall i :: 0 <= i < |items| ==> TemplateIds(items[i].1).Success?
    ensures r.Success? ==> |r.value| == |items|
    ensures r.Success? ==>
      forall i :: 0 <= i < |items| ==> ListEntry(items[i].0, items[i].1) == Success(r.value[i])
    ensures r.Failure? ==> exists i :: FirstFailureAt(items, i, r.error)
  {
    if items == [] then Success([])
    else
      var rest := items[1..];
      assert forall i :: 1 <= i < |items| ==> rest[i - 1] == items[i];
      match ListEntry(items[0].0, items[0].1)
      case Failure(e) =>
        assert FirstFailureAt(items, 0, e);
        Failure(e)
      case Success(head) =>
        match ListEntries(rest)
        case Success(tail) => Success([head] + tail)
        case Failure(e) =>
          var k :| FirstFailureAt(rest, k, e);
          assert FirstFailureAt(items, k + 1, e);
          Failure(e)
  }

  /**
   * `GET /templates`: the entries of the table in ascending id order, `count` their number;
   * any exception inside becomes a 500.
   */
  function GetTemplates(table: Table): (r: Result<Listing, HttpError>)
    requires ValidTable(table)
    ensures r.Success? ==> r.value.count == |r.value.templates|
    ensures r.Failure? ==> r.error.status == 500 && r.error.detail.Text?
  {
    match ListEntries(SortByKey(table))
    case Success(entries) => Success(Listing(|entries|, entries))
    case Failure(e) => Failure(CatchAll(e))
  }

  /** The listing succeeds exactly when every entry of the table has its three provider ids. */
  lemma ListingSucceedsIff(table: Table)
    requires ValidTable(table)
    ensures GetTemplates(table).Success? <==>
      forall i :: 0 <= i < |table| ==> TemplateIds(table[i].1).Success?
  {
    var sorted := SortByKey(table);
    if forall i :: 0 <= i < |table| ==> TemplateIds(table[i].1).Success? {
      forall j | 0 <= j < |sorted| ensures TemplateIds(sorted[j].1).Success? {
        assert sorted[j] in sorted;
        var i :| 0 <= i < |table| && table[i] == sorted[j];
      }
    } else {
      var i :| 0 <= i < |table| && !TemplateIds(table[i].1).Success?;
      assert table[i] in table;
      var j :| 0 <= j < |sorted| && sorted[j] == table[i];
    }
  }

  /**
   * A failed listing is the 500 of the `KeyError` raised by the first template, in ascending id
   * order, that lacks one of its three provider ids.
   */
  lemma ListingFailureNamesFirst(table: Table)
    requires ValidTable(table) && GetTemplates(table).Failure?
    ensures exists i, e :: FirstFailureAt(SortByKey(table), i, e) && GetTemplates(table).error == CatchAll(e)
  {
    var e := ListEntries(SortByKey(table)).error;
    var i :| FirstFailureAt(SortByKey(table), i, e);
  }

  /** A successful listing is ordered by strictly ascending id, one object per table entry. */
  lemma ListingIsSorted(table: Table)
    requires ValidTable(table) && GetTemplates(table).Success?
    ensures var ts := GetTemplates(table).value.templates;
      && |ts| == |table|
      && forall i, j :: 0 <= i < j < |ts| ==> ts[i].templateId < ts[j].templateId
  {
    var sorted := SortByKey(table);
    var ts := ListEntries(sorted).value;
    forall i, j | 0 <= i < j < |ts|
      ensures ts[i].templateId < ts[j].templateId
    {
      assert ListEntry(sorted[i].0, sorted[i].1) == Success(ts[i]);
      assert ListEntry(sorted[j].0, sorted[j].1) == Success(ts[j]);
    }
  }

  /** A successful listing shows every table entry, and shows nothing but table entries. */
  lemma ListingIsComplete(table: Table)
    requires ValidTable(table) && GetTemplates(table).Success?
    ensures var ts := GetTemplates(table).value.templates;
      && (forall i :: 0 <= i < |table| ==>
            exists j :: 0 <= j < |ts| && ListEntry(table[i].0, table[i].1) == Success(ts[j]))
      && (forall j :: 0 <= j < |ts| ==>
            exists i :: 0 <= i < |table| && ListEntry(table[i].0, table[i].1) == Success(ts[j]))
  {
    var sorted := SortByKey(table);
    var ts := ListEntries(sorted).value;
    forall i | 0 <= i < |table|
      ensures exists j :: 0 <= j < |ts| && ListEntry(table[i].0, table[i].1) == Success(ts[j])
    {
      assert table[i] in table;
      var j :| 0 <= j < |sorted| && sorted[j] == table[i];
      assert ListEntry(sorted[j].0, sorted[j].1) == Success(ts[j]);
    }
    forall j | 0 <= j < |ts|
      ensures exists i :: 0 <= i < |table| && ListEntry(table[i].0, table[i].1) == Success(ts[j])
    {
      assert sorted[j] in sorted;
      var i :| 0 <= i < |table| && table[i] == sorted[j];
      assert ListEntry(sorted[j].0, sorted[j].1) == Success(ts[j]);
    }
  }
}
