/**
 * What a backup run does to the output directory, as functions of the disk
 * before it and of the answers the API gives.
 *
 * The API is a value: `list` is what draining the pages of a listing yields
 * (see `Client.GetPaginated`), `get` the decoded answer to one request and
 * `download` the bytes behind a client link.  Each traversal of the executor
 * is a left fold here, so that the executor's loops can be proved against it
 * one step at a time.
 */
module Backup {
  import opened Wrappers
  import opened Strings
  import opened Json
  import opened Endpoints
  import opened Writer
  import opened Accounts
  import Client

  const HarvestDomainSuffix: string := ".harvestapp.com"
  /** The one item field left out of the PDF fingerprint. */
  const ExcludedFromHash: string := "updated_at"
  const UnprocessableEntity: int := 422

  datatype Api = Api(
    get: (int, string) -> Result<Json, Client.ClientError>,
    list: (int, string) -> Client.Drained,
    download: string -> Result<seq<byte>, Client.ClientError>)

  datatype BackupError =
    | ApiFailure(error: Client.ClientError)
      /** `set.add` of a list or dict id (a `TypeError`). */
    | UnhashableId
      /** The `ValueError` raised when discovery finds no Harvest account. */
    | NoAccounts

  predicate IsAuth(e: BackupError)
  {
    e.ApiFailure? && e.error.AuthFailed?
  }

  /** `_is_422_error`: an HTTP status error carrying 422. */
  predicate Is422(e: Client.ClientError)
  {
    e == Client.StatusError(UnprocessableEntity)
  }

  /** A 422 answer is raised at once as the status error `Is422` recognises. */
  lemma UnprocessableIsStatusError(resp: Client.Response, attempt: int, delay: int, maxRetries: int)
    requires resp.status == UnprocessableEntity
    ensures Client.HandleHttpError(resp, attempt, delay, maxRetries) == Client.Raise(Client.StatusError(422))
    ensures Is422(Client.HandleHttpError(resp, attempt, delay, maxRetries).error)
  {
  }

  /** The files below the output directory and the writer's manifest. */
  datatype Disk = Disk(files: map<Path, FileContent>, manifest: Manifest)

  /** The path `q` holds the same thing (or nothing) in both disks. */
  predicate Keeps(d: Disk, d2: Disk, q: Path)
  {
    (q in d.files <==> q in d2.files) && (q in d.files ==> d2.files[q] == d.files[q])
  }

  function PutJson(d: Disk, root: Path, accountId: int, endpoint: string, filename: string, doc: Json): Disk
  {
    Disk(d.files[JsonPath(root, accountId, endpoint, filename) := JsonFile(doc)], d.manifest)
  }

  // ---------------------------------------------------------------- items

  /** `isinstance(item, dict)` and `item.get(key)` is truthy. */
  predicate TruthyField(item: Json, key: string)
  {
    item.JObj? && Lookup(item.fields, key).Some? && Truthy(Lookup(item.fields, key).value)
  }

  function Field(item: Json, key: string): Json
    requires TruthyField(item, key)
  {
    Lookup(item.fields, key).value
  }

  /** The items of a listing and the distinct truthy ids, in first-seen order. */
  datatype Collection = Collection(items: seq<Json>, ids: seq<Json>)

  function CollectFrom(xs: seq<Json>, acc: Collection): Result<Collection, BackupError>
    decreases |xs|
  {
    if xs == [] then Ok(acc)
    else if !xs[0].JObj? then CollectFrom(xs[1..], acc)
    else if TruthyField(xs[0], "id") && !Hashable(Field(xs[0], "id")) then Err(UnhashableId)
    else
      CollectFrom(xs[1..], Collection(acc.items + [xs[0]], NextIds(acc.ids, xs[0])))
  }

  /** `item_ids.add(item_id)` when the id is truthy. */
  function NextIds(ids: seq<Json>, item: Json): seq<Json>
  {
    if TruthyField(item, "id") && Field(item, "id") !in ids then ids + [Field(item, "id")] else ids
  }

  /** `_collect_items_from_pagination` over a drained listing: an unhashable
      id fails first, then the error the listing ended with. */
  function Collected(drained: Client.Drained): Result<Collection, BackupError>
  {
    var r := CollectFrom(drained.items, Collection([], []));
    if r.Err? then r
    else if drained.error.Some? then Err(ApiFailure(drained.error.value))
    else r
  }

  function Dicts(xs: seq<Json>): (r: seq<Json>)
    ensures forall x :: x in r <==> x in xs && x.JObj?
  {
    if xs == [] then []
    else if xs[0].JObj? then [xs[0]] + Dicts(xs[1..])
    else Dicts(xs[1..])
  }

  predicate IdsHashable(xs: seq<Json>)
  {
    forall i :: 0 <= i < |xs| && TruthyField(xs[i], "id") ==> Hashable(Field(xs[i], "id"))
  }

  predicate IsIdOf(xs: seq<Json>, v: Json)
  {
    exists i :: 0 <= i < |xs| && TruthyField(xs[i], "id") && Field(xs[i], "id") == v
  }

  predicate Distinct(xs: seq<Json>)
  {
    forall i, j :: 0 <= i < j < |xs| ==> xs[i] != xs[j]
  }

  lemma {:induction false} CollectFromOkIff(xs: seq<Json>, acc: Collection)
    ensures CollectFrom(xs, acc).Ok? <==> IdsHashable(xs)
    decreases |xs|
  {
    if xs != [] {
      var x := xs[0];
      if !x.JObj? || !(TruthyField(x, "id") && !Hashable(Field(x, "id"))) {
        var acc' := if x.JObj? then Collection(acc.items + [x], NextIds(acc.ids, x)) else acc;
        CollectFromOkIff(xs[1..], acc');
        assert CollectFrom(xs, acc) == CollectFrom(xs[1..], acc');
        if IdsHashable(xs[1..]) {
          forall i | 0 <= i < |xs| && TruthyField(xs[i], "id") ensures Hashable(Field(xs[i], "id")) {
            if i > 0 { assert xs[1..][i - 1] == xs[i]; }
          }
        }
        if IdsHashable(xs) {
          forall i | 0 <= i < |xs[1..]| && TruthyField(xs[1..][i], "id") ensures Hashable(Field(xs[1..][i], "id")) {
            assert xs[1..][i] == xs[i + 1];
          }
        }
      } else {
        assert !IdsHashable(xs);
      }
    }
  }

  lemma {:induction false} CollectFromItems(xs: seq<Json>, acc: Collection)
    requires CollectFrom(xs, acc).Ok?
    ensures CollectFrom(xs, acc).value.items == acc.items + Dicts(xs)
    decreases |xs|
  {
    if xs != [] {
      var x := xs[0];
      if !x.JObj? {
        CollectFromItems(xs[1..], acc);
        assert Dicts(xs) == Dicts(xs[1..]);
      } else {
        var acc' := Collection(acc.items + [x], NextIds(acc.ids, x));
        assert CollectFrom(xs, acc) == CollectFrom(xs[1..], acc');
        CollectFromItems(xs[1..], acc');
        assert Dicts(xs) == [x] + Dicts(xs[1..]);
        assert acc.items + Dicts(xs) == acc'.items + Dicts(xs[1..]);
      }
    }
  }

  /** Adding an item's id keeps the ids distinct and adds exactly its truthy id. */
  lemma NextIdsSpec(ids: seq<Json>, item: Json)
    requires Distinct(ids)
    ensures Distinct(NextIds(ids, item))
    ensures forall v :: v in NextIds(ids, item) <==> v in ids || (TruthyField(item, "id") && Field(item, "id") == v)
  {
  }

  lemma {:induction false} CollectFromIds(xs: seq<Json>, acc: Collection)
    requires Distinct(acc.ids)
    requires CollectFrom(xs, acc).Ok?
    ensures var c := CollectFrom(xs, acc).value;
      && Distinct(c.ids)
      && (forall v :: v in c.ids <==> v in acc.ids || IsIdOf(xs, v))
    decreases |xs|
  {
    if xs != [] {
      var x := xs[0];
      var acc' := if x.JObj? then Collection(acc.items + [x], NextIds(acc.ids, x)) else acc;
      assert CollectFrom(xs, acc) == CollectFrom(xs[1..], acc');
      NextIdsSpec(acc.ids, x);
      CollectFromIds(xs[1..], acc');
      var c := CollectFrom(xs, acc).value;
      forall v ensures v in c.ids <==> v in acc.ids || IsIdOf(xs, v) {
        if IsIdOf(xs, v) {
          var i :| 0 <= i < |xs| && TruthyField(xs[i], "id") && Field(xs[i], "id") == v;
          if i > 0 { assert xs[1..][i - 1] == xs[i]; }
        }
        if IsIdOf(xs[1..], v) {
          var i :| 0 <= i < |xs[1..]| && TruthyField(xs[1..][i], "id") && Field(xs[1..][i], "id") == v;
          assert xs[i + 1] == xs[1..][i];
        }
      }
    }
  }

  /**
   * A drained listing is collected exactly when it ended without error and
   * no dict item has a list or dict id: then the items are its dict items in
   * order and the ids are the distinct truthy ids of those items.  With
   * hashable ids, a failed listing fails with its own error.
   */
  lemma CollectedSpec(drained: Client.Drained)
    ensures Collected(drained).Ok? <==> drained.error.None? && IdsHashable(drained.items)
    ensures Collected(drained).Ok? ==> var c := Collected(drained).value;
      && c.items == Dicts(drained.items)
      && Distinct(c.ids)
      && (forall v :: v in c.ids <==> IsIdOf(drained.items, v))
    ensures drained.error.Some? && IdsHashable(drained.items) ==>
      Collected(drained) == Err(ApiFailure(drained.error.value))
  {
    var acc := Collection([], []);
    CollectFromOkIff(drained.items, acc);
    if CollectFrom(drained.items, acc).Ok? {
      CollectFromItems(drained.items, acc);
      CollectFromIds(drained.items, acc);
    }
  }

  /** An id that is unhashable but falsy (an empty list or dict) is not collected, so it is no error. */
  lemma FalsyListIdIgnored(rest: seq<(string, Json)>)
    ensures var item := JObj([("id", JArr([]))] + rest);
      CollectFrom([item], Collection([], [])) == Ok(Collection([item], []))
  {
    var item := JObj([("id", JArr([]))] + rest);
    assert Lookup(item.fields, "id") == Some(JArr([]));
    assert [item][1..] == [];
    assert [] + [item] == [item];
  }

  /** `f"{item_id}.json"` */
  function ItemFileName(id: Json): string
  {
    PyStr(id) + ".json"
  }

  /** `_backup_individual_items` after the `has_detail` check: one file per dict item
      with a truthy id, holding the item. */
  function ItemFilesFrom(d: Disk, root: Path, accountId: int, name: string, items: seq<Json>): Disk
    decreases |items|
  {
    if items == [] then d
    else ItemFilesFrom(ItemStep(d, root, accountId, name, items[0]), root, accountId, name, items[1..])
  }

  /** One item: stored under its id when it is a dict with a truthy id. */
  function ItemStep(d: Disk, root: Path, accountId: int, name: string, item: Json): Disk
  {
    if TruthyField(item, "id") then PutJson(d, root, accountId, name, ItemFileName(Field(item, "id")), item) else d
  }

  function ItemFiles(d: Disk, root: Path, accountId: int, e: Endpoint, items: seq<Json>): Disk
  {
    if !e.hasDetail then d else ItemFilesFrom(d, root, accountId, e.name, items)
  }

  /** Item files touch no path but the ones named after the items' ids, and never the manifest. */
  lemma {:induction false} ItemFilesKeep(d: Disk, root: Path, accountId: int, name: string, items: seq<Json>, q: Path)
    requires forall j :: 0 <= j < |items| && TruthyField(items[j], "id") ==>
      q != JsonPath(root, accountId, name, ItemFileName(Field(items[j], "id")))
    ensures Keeps(d, ItemFilesFrom(d, root, accountId, name, items), q)
    ensures ItemFilesFrom(d, root, accountId, name, items).manifest == d.manifest
    decreases |items|
  {
    if items != [] {
      var d' := ItemStep(d, root, accountId, name, items[0]);
      assert forall j :: 0 <= j < |items[1..]| ==> items[1..][j] == items[j + 1];
      ItemFilesKeep(d', root, accountId, name, items[1..], q);
    }
  }

  /**
   * Each dict item with a truthy id ends up in its own file, unless a later
   * item maps to the same file name (as the ids 1 and "1" do), in which case
   * the later one wins.
   */
  lemma {:induction false} ItemFileHoldsItem(d: Disk, root: Path, accountId: int, name: string, items: seq<Json>, i: nat)
    requires i < |items| && TruthyField(items[i], "id")
    requires forall j :: i < j < |items| && TruthyField(items[j], "id") ==>
      ItemFileName(Field(items[j], "id")) != ItemFileName(Field(items[i], "id"))
    ensures var p := JsonPath(root, accountId, name, ItemFileName(Field(items[i], "id")));
      var d2 := ItemFilesFrom(d, root, accountId, name, items);
      p in d2.files && d2.files[p] == JsonFile(items[i])
    decreases |items|
  {
    var d' := ItemStep(d, root, accountId, name, items[0]);
    var rest := items[1..];
    assert ItemFilesFrom(d, root, accountId, name, items) == ItemFilesFrom(d', root, accountId, name, rest);
    if i == 0 {
      var f := ItemFileName(Field(items[0], "id"));
      var p := JsonPath(root, accountId, name, f);
      assert p in d'.files && d'.files[p] == JsonFile(items[0]);
      forall j | 0 <= j < |rest| && TruthyField(rest[j], "id")
        ensures p != JsonPath(root, accountId, name, ItemFileName(Field(rest[j], "id")))
      {
        assert rest[j] == items[j + 1];
        if p == JsonPath(root, accountId, name, ItemFileName(Field(rest[j], "id"))) {
          JsonPathInjective(root, accountId, name, f, accountId, name, ItemFileName(Field(rest[j], "id")));
        }
      }
      ItemFilesKeep(d', root, accountId, name, rest, p);
    } else {
      assert rest[i - 1] == items[i];
      forall j | i - 1 < j < |rest| && TruthyField(rest[j], "id")
        ensures ItemFileName(Field(rest[j], "id")) != ItemFileName(Field(rest[i - 1], "id"))
      {
        assert rest[j] == items[j + 1];
      }
      ItemFileHoldsItem(d', root, accountId, name, rest, i - 1);
    }
  }

  // --------------------------------------------------------------- nested

  /** `template.replace("{id}", str(item_id))` */
  function NestedPath(template: string, id: Json): string
  {
    Replace(template, "{id}", PyStr(id))
  }

  /** `f"{item_id}_{nested_path.split('/')[-1]}.json"` */
  function NestedFileName(id: Json, path: string): string
  {
    PyStr(id) + "_" + LastSegment(path) + ".json"
  }

  /** One (template, id) pair: a failed listing (422 or any other error,
      authentication included) and an empty one write nothing. */
  function NestedStep(d: Disk, root: Path, accountId: int, name: string, api: Api, template: string, id: Json): Disk
  {
    var path := NestedPath(template, id);
    var r := api.list(accountId, path);
    if r.error.Some? || r.items == [] then d
    else PutJson(d, root, accountId, name, NestedFileName(id, path), JArr(r.items))
  }

  function NestedForTemplate(d: Disk, root: Path, accountId: int, name: string, api: Api, template: string, ids: seq<Json>): Disk
    decreases |ids|
  {
    if ids == [] then d
    else NestedForTemplate(NestedStep(d, root, accountId, name, api, template, ids[0]), root, accountId, name, api, template, ids[1..])
  }

  function NestedForTemplates(d: Disk, root: Path, accountId: int, name: string, api: Api, templates: seq<string>, ids: seq<Json>): Disk
    decreases |templates|
  {
    if templates == [] then d
    else NestedForTemplates(NestedForTemplate(d, root, accountId, name, api, templates[0], ids),
      root, accountId, name, api, templates[1..], ids)
  }

  /** `_backup_nested_resources`: templates outermost, ids innermost. */
  function NestedFiles(d: Disk, root: Path, accountId: int, e: Endpoint, api: Api, ids: seq<Json>): Disk
  {
    if !e.hasNested || e.nestedPaths.None? || e.nestedPaths.value == [] || ids == [] then d
    else NestedForTemplates(d, root, accountId, e.name, api, e.nestedPaths.value, ids)
  }

  /** Nothing is fetched for an endpoint without nested templates, or without ids. */
  lemma NestedSkipped(d: Disk, root: Path, accountId: int, e: Endpoint, api: Api, ids: seq<Json>)
    requires !e.hasNested || e.nestedPaths.None? || e.nestedPaths == Some([]) || ids == []
    ensures NestedFiles(d, root, accountId, e, api, ids) == d
  {
  }

  /** A pair whose listing fails, whatever the error, or comes back empty leaves the disk alone;
      otherwise its items are stored as one list. */
  lemma NestedStepSpec(d: Disk, root: Path, accountId: int, name: string, api: Api, template: string, id: Json)
    ensures var path := NestedPath(template, id);
      var r := api.list(accountId, path);
      var d2 := NestedStep(d, root, accountId, name, api, template, id);
      && (r.error.Some? || r.items == [] ==> d2 == d)
      && (r.error.None? && r.items != [] ==>
            var p := JsonPath(root, accountId, name, NestedFileName(id, path));
            d2.files == d.files[p := JsonFile(JArr(r.items))] && d2.manifest == d.manifest)
  {
  }

  /** A 422 on a nested listing is skipped like every other failure. */
  lemma Nested422Skipped(d: Disk, root: Path, accountId: int, name: string, api: Api, template: string, id: Json)
    requires api.list(accountId, NestedPath(template, id)).error == Some(Client.StatusError(UnprocessableEntity))
    ensures Is422(api.list(accountId, NestedPath(template, id)).error.value)
    ensures NestedStep(d, root, accountId, name, api, template, id) == d
  {
  }

  /** With no `{` before the placeholder and no placeholder after it, the id
      replaces exactly the placeholder. */
  lemma SubstituteId(pre: string, post: string, id: Json)
    requires '{' !in pre
    requires !Contains(post, "{id}")
    ensures NestedPath(pre + "{id}" + post, id) == pre + PyStr(id) + post
  {
    var s := pre + "{id}" + post;
    forall i | 0 <= i < |pre| ensures !OccursAt(s, "{id}", i) {
      assert s[i] == pre[i];
    }
    ReplaceSingle(pre, "{id}", post, PyStr(id));
  }

  /** The nested file is named after the id and the template's last segment,
      whatever characters the id holds. */
  lemma NestedNameFromTemplate(id: Json, prefix: string, segment: string)
    requires '/' !in segment
    ensures NestedFileName(id, prefix + "/" + segment) == PyStr(id) + "_" + segment + ".json"
  {
    var s := prefix + "/" + segment;
    var r := LastSegment(s);
    assert s[|s| - |segment| - 1] == '/';
    assert r == s[|s| - |segment|..] == segment;
  }

  /** Nested files always hold an underscore, so they never overwrite `list.json`. */
  lemma NestedNameHasUnderscore(id: Json, path: string)
    ensures '_' in NestedFileName(id, path)
    ensures NestedFileName(id, path) != "list.json"
  {
    UnderscoreName(PyStr(id), LastSegment(path), ".json");
  }

  lemma UnderscoreName(a: string, b: string, c: string)
    ensures '_' in a + "_" + b + c
    ensures a + "_" + b + c != "list.json"
  {
    assert (a + "_" + b + c)[|a|] == '_';
    assert '_' !in "list.json";
  }

  /** No file name holding an underscore is stored at `q`. */
  ghost predicate NoUnderscoreFileAt(q: Path, root: Path, accountId: int, name: string)
  {
    forall f :: q == JsonPath(root, accountId, name, f) ==> '_' !in f
  }

  lemma NestedStepKeeps(d: Disk, root: Path, accountId: int, name: string, api: Api, template: string, id: Json, q: Path)
    requires NoUnderscoreFileAt(q, root, accountId, name)
    ensures var d2 := NestedStep(d, root, accountId, name, api, template, id);
      Keeps(d, d2, q) && d2.manifest == d.manifest
  {
    NestedNameHasUnderscore(id, NestedPath(template, id));
  }

  lemma {:induction false} NestedForTemplateKeeps(d: Disk, root: Path, accountId: int, name: string, api: Api,
    template: string, ids: seq<Json>, q: Path)
    requires NoUnderscoreFileAt(q, root, accountId, name)
    ensures var d2 := NestedForTemplate(d, root, accountId, name, api, template, ids);
      Keeps(d, d2, q) && d2.manifest == d.manifest
    decreases |ids|
  {
    if ids != [] {
      NestedStepKeeps(d, root, accountId, name, api, template, ids[0], q);
      NestedForTemplateKeeps(NestedStep(d, root, accountId, name, api, template, ids[0]),
        root, accountId, name, api, template, ids[1..], q);
    }
  }

  lemma {:induction false} NestedForTemplatesKeeps(d: Disk, root: Path, accountId: int, name: string, api: Api,
    templates: seq<string>, ids: seq<Json>, q: Path)
    requires NoUnderscoreFileAt(q, root, accountId, name)
    ensures var d2 := NestedForTemplates(d, root, accountId, name, api, templates, ids);
      Keeps(d, d2, q) && d2.manifest == d.manifest
    decreases |templates|
  {
    if templates != [] {
      NestedForTemplateKeeps(d, root, accountId, name, api, templates[0], ids, q);
      NestedForTemplatesKeeps(NestedForTemplate(d, root, accountId, name, api, templates[0], ids),
        root, accountId, name, api, templates[1..], ids, q);
    }
  }

  /** The file the pair (template, id) is stored in. */
  function PairFile(template: string, id: Json): string
  {
    NestedFileName(id, NestedPath(template, id))
  }

  /** The nested listing of the pair succeeded and is not empty. */
  predicate Stored(api: Api, accountId: int, template: string, id: Json)
  {
    var r := api.list(accountId, NestedPath(template, id));
    r.error.None? && r.items != []
  }

  /** A pair stored under another name leaves the file `f` alone. */
  lemma NestedStepOther(d: Disk, root: Path, accountId: int, name: string, api: Api, template: string, id: Json, f: string)
    requires PairFile(template, id) != f
    ensures Keeps(d, NestedStep(d, root, accountId, name, api, template, id), JsonPath(root, accountId, name, f))
  {
    if JsonPath(root, accountId, name, PairFile(template, id)) == JsonPath(root, accountId, name, f) {
      JsonPathInjective(root, accountId, name, PairFile(template, id), accountId, name, f);
    }
  }

  lemma {:induction false} NestedForTemplateOther(d: Disk, root: Path, accountId: int, name: string, api: Api,
    template: string, ids: seq<Json>, f: string)
    requires forall j :: 0 <= j < |ids| ==> PairFile(template, ids[j]) != f
    ensures Keeps(d, NestedForTemplate(d, root, accountId, name, api, template, ids), JsonPath(root, accountId, name, f))
    decreases |ids|
  {
    if ids != [] {
      NestedStepOther(d, root, accountId, name, api, template, ids[0], f);
      assert forall j :: 0 <= j < |ids[1..]| ==> ids[1..][j] == ids[j + 1];
      NestedForTemplateOther(NestedStep(d, root, accountId, name, api, template, ids[0]),
        root, accountId, name, api, template, ids[1..], f);
    }
  }

  lemma {:induction false} NestedForTemplatesOther(d: Disk, root: Path, accountId: int, name: string, api: Api,
    templates: seq<string>, ids: seq<Json>, f: string)
    requires forall s, j :: 0 <= s < |templates| && 0 <= j < |ids| ==> PairFile(templates[s], ids[j]) != f
    ensures Keeps(d, NestedForTemplates(d, root, accountId, name, api, templates, ids), JsonPath(root, accountId, name, f))
    decreases |templates|
  {
    if templates != [] {
      NestedForTemplateOther(d, root, accountId, name, api, templates[0], ids, f);
      assert forall s :: 0 <= s < |templates[1..]| ==> templates[1..][s] == templates[s + 1];
      NestedForTemplatesOther(NestedForTemplate(d, root, accountId, name, api, templates[0], ids),
        root, accountId, name, api, templates[1..], ids, f);
    }
  }

  /** Within one template, a stored pair keeps its file unless a later id
      of the template maps to the same name. */
  lemma {:induction false} NestedForTemplateHolds(d: Disk, root: Path, accountId: int, name: string, api: Api,
    template: string, ids: seq<Json>, i: nat)
    requires i < |ids| && Stored(api, accountId, template, ids[i])
    requires forall j :: i < j < |ids| ==> PairFile(template, ids[j]) != PairFile(template, ids[i])
    ensures var p := JsonPath(root, accountId, name, PairFile(template, ids[i]));
      var d2 := NestedForTemplate(d, root, accountId, name, api, template, ids);
      p in d2.files && d2.files[p] == JsonFile(JArr(api.list(accountId, NestedPath(template, ids[i])).items))
    decreases |ids|
  {
    var d1 := NestedStep(d, root, accountId, name, api, template, ids[0]);
    var rest := ids[1..];
    assert forall j :: 0 <= j < |rest| ==> rest[j] == ids[j + 1];
    if i == 0 {
      NestedForTemplateOther(d1, root, accountId, name, api, template, rest, PairFile(template, ids[0]));
    } else {
      NestedForTemplateHolds(d1, root, accountId, name, api, template, rest, i - 1);
    }
  }

  /** Over all templates, a stored pair keeps its file unless a pair visited
      after it maps to the same name. */
  lemma {:induction false} NestedForTemplatesHolds(d: Disk, root: Path, accountId: int, name: string, api: Api,
    templates: seq<string>, ids: seq<Json>, t: nat, i: nat)
    requires t < |templates| && i < |ids| && Stored(api, accountId, templates[t], ids[i])
    requires forall j :: i < j < |ids| ==> PairFile(templates[t], ids[j]) != PairFile(templates[t], ids[i])
    requires forall s, j :: t < s < |templates| && 0 <= j < |ids| ==>
      PairFile(templates[s], ids[j]) != PairFile(templates[t], ids[i])
    ensures var p := JsonPath(root, accountId, name, PairFile(templates[t], ids[i]));
      var d2 := NestedForTemplates(d, root, accountId, name, api, templates, ids);
      p in d2.files && d2.files[p] == JsonFile(JArr(api.list(accountId, NestedPath(templates[t], ids[i])).items))
    decreases |templates|
  {
    var d1 := NestedForTemplate(d, root, accountId, name, api, templates[0], ids);
    var rest := templates[1..];
    assert forall s :: 0 <= s < |rest| ==> rest[s] == templates[s + 1];
    if t == 0 {
      NestedForTemplateHolds(d, root, accountId, name, api, templates[0], ids, i);
      NestedForTemplatesOther(d1, root, accountId, name, api, rest, ids, PairFile(templates[0], ids[i]));
    } else {
      NestedForTemplatesHolds(d1, root, accountId, name, api, rest, ids, t - 1, i);
    }
  }

  /**
   * A nested listing that succeeds with items is stored in its own file,
   * whatever the other (template, id) pairs return (a 422 or any other
   * failure of theirs included), unless a pair visited after it maps to
   * the same file name.
   */
  lemma NestedFileHoldsListing(d: Disk, root: Path, accountId: int, e: Endpoint, api: Api, ids: seq<Json>, t: nat, i: nat)
    requires e.hasNested && e.nestedPaths.Some?
    requires t < |e.nestedPaths.value| && i < |ids|
    requires Stored(api, accountId, e.nestedPaths.value[t], ids[i])
    requires var ts := e.nestedPaths.value;
      forall j :: i < j < |ids| ==> PairFile(ts[t], ids[j]) != PairFile(ts[t], ids[i])
    requires var ts := e.nestedPaths.value;
      forall s, j :: t < s < |ts| && 0 <= j < |ids| ==> PairFile(ts[s], ids[j]) != PairFile(ts[t], ids[i])
    ensures var ts := e.nestedPaths.value;
      var p := JsonPath(root, accountId, e.name, PairFile(ts[t], ids[i]));
      var d2 := NestedFiles(d, root, accountId, e, api, ids);
      p in d2.files && d2.files[p] == JsonFile(JArr(api.list(accountId, NestedPath(ts[t], ids[i])).items))
  {
    NestedForTemplatesHolds(d, root, accountId, e.name, api, e.nestedPaths.value, ids, t, i);
  }

  // ----------------------------------------------------------------- PDFs

  /** The object the PDF hash covers: the item without `updated_at`, keys sorted. */
  function HashInput(fields: seq<(string, Json)>): Canonical
  {
    Canon(JObj(RemoveField(fields, ExcludedFromHash)))
  }

  /** `_calculate_item_hash`, with the serialise-and-digest step as a parameter. */
  function Fingerprint(digest: Canonical -> string, fields: seq<(string, Json)>): string
  {
    digest(HashInput(fields))
  }

  /** Two items hash alike exactly when they agree on every field but `updated_at`,
      whatever the order of their fields. */
  lemma HashInputIff(a: seq<(string, Json)>, b: seq<(string, Json)>)
    ensures HashInput(a) == HashInput(b) <==>
      forall k :: k != ExcludedFromHash ==> CanonLookup(a, k) == CanonLookup(b, k)
  {
    var ra, rb := RemoveField(a, ExcludedFromHash), RemoveField(b, ExcludedFromHash);
    CanonObjectIff(ra, rb);
    assert forall k :: CanonLookup(ra, k) == if k == ExcludedFromHash then None else CanonLookup(a, k);
    assert forall k :: CanonLookup(rb, k) == if k == ExcludedFromHash then None else CanonLookup(b, k);
  }

  /** A change to `updated_at` alone does not change the fingerprint. */
  lemma FingerprintIgnoresUpdatedAt(digest: Canonical -> string, fields: seq<(string, Json)>, v: Json)
    ensures Fingerprint(digest, [(ExcludedFromHash, v)] + fields) == Fingerprint(digest, fields)
  {
    var a := [(ExcludedFromHash, v)] + fields;
    assert forall k :: k != ExcludedFromHash ==> Lookup(a, k) == Lookup(fields, k) by {
      assert a[1..] == fields;
    }
    HashInputIff(a, fields);
  }

  /** `_build_client_link_url` */
  function ClientLinkUrl(subdomain: string, name: string, clientKey: string): string
  {
    "https://" + subdomain + HarvestDomainSuffix + "/client/" + name + "/" + clientKey + ".pdf"
  }

  /** On one account and endpoint, distinct client keys give distinct links. */
  lemma ClientLinkUrlInjective(subdomain: string, name: string, k1: string, k2: string)
    requires ClientLinkUrl(subdomain, name, k1) == ClientLinkUrl(subdomain, name, k2)
    ensures k1 == k2
  {
    var prefix := "https://" + subdomain + HarvestDomainSuffix + "/client/" + name + "/";
    var u1, u2 := ClientLinkUrl(subdomain, name, k1), ClientLinkUrl(subdomain, name, k2);
    assert u1 == prefix + k1 + ".pdf" && u2 == prefix + k2 + ".pdf";
    assert |k1| == |k2|;
    assert k1 == u1[|prefix|..|prefix| + |k1|];
    assert k2 == u2[|prefix|..|prefix| + |k2|];
  }

  /** An item qualifies for a PDF download attempt when it has a truthy id and
      client key, the account has a subdomain, and the artifact needs a download. */
  predicate WillDownload(d: Disk, root: Path, account: Account, name: string, digest: Canonical -> string, item: Json)
  {
    && TruthyField(item, "id") && TruthyField(item, "client_key")
    && account.subdomain.Some? && account.subdomain.value != ""
    && NeedsDownload(d.files, d.manifest, root, account.id, name, PyStr(Field(item, "id")),
         PyStr(Field(item, "id")) + ".pdf", Fingerprint(digest, item.fields))
  }

  /** The link a qualifying item is downloaded from. */
  function PdfUrl(account: Account, name: string, item: Json): string
    requires TruthyField(item, "client_key") && account.subdomain.Some?
  {
    ClientLinkUrl(account.subdomain.value, name, PyStr(Field(item, "client_key")))
  }

  /** One item of `_backup_pdfs`: a failed download is skipped. */
  function PdfStep(d: Disk, root: Path, account: Account, name: string, api: Api, digest: Canonical -> string, item: Json): Disk
  {
    if !WillDownload(d, root, account, name, digest, item) then d
    else
      var id := PyStr(Field(item, "id"));
      var got := api.download(PdfUrl(account, name, item));
      if got.Err? then d
      else
        var w := WriteBinaryEffect(d.files, d.manifest, root, account.id, name, id, id + ".pdf",
          got.value, Fingerprint(digest, item.fields));
        Disk(w.files, w.manifest)
  }

  function PdfFiles(d: Disk, root: Path, account: Account, name: string, api: Api, digest: Canonical -> string, items: seq<Json>): Disk
    decreases |items|
  {
    if items == [] then d
    else PdfFiles(PdfStep(d, root, account, name, api, digest, items[0]), root, account, name, api, digest, items[1..])
  }

  /**
   * A PDF step that does not qualify changes nothing and asks for nothing;
   * a qualifying one whose download succeeds stores the bytes under
   * `artifacts/<id>.pdf` and records the item's fingerprint, so the same
   * item (up to `updated_at`) is not downloaded again.
   */
  lemma PdfStepSpec(d: Disk, root: Path, account: Account, name: string, api: Api, digest: Canonical -> string, item: Json)
    ensures !WillDownload(d, root, account, name, digest, item) ==>
      PdfStep(d, root, account, name, api, digest, item) == d
    ensures WillDownload(d, root, account, name, digest, item) && api.download(PdfUrl(account, name, item)).Ok? ==>
      var id := PyStr(Field(item, "id"));
      var d2 := PdfStep(d, root, account, name, api, digest, item);
      var p := ArtifactPath(root, account.id, name, id + ".pdf");
      && p in d2.files && d2.files[p] == BinaryFile(api.download(PdfUrl(account, name, item)).value)
      && ManifestHash(d2.manifest, account.id, name, id) == Some(Fingerprint(digest, item.fields))
      && !WillDownload(d2, root, account, name, digest, item)
  {
    if WillDownload(d, root, account, name, digest, item) && api.download(PdfUrl(account, name, item)).Ok? {
      var id := PyStr(Field(item, "id"));
      WriteRecordsHash(d.files, d.manifest, root, account.id, name, id, id + ".pdf",
        api.download(PdfUrl(account, name, item)).value, Fingerprint(digest, item.fields));
    }
  }

  /** Once an item's PDF is stored, a later version of the item that differs
      at most in `updated_at` (its value changed, added or dropped, and its
      fields in any order) needs no download, so the step asks for nothing
      and changes nothing. */
  lemma UnchangedItemNotDownloadedAgain(d: Disk, root: Path, account: Account, name: string, api: Api,
    digest: Canonical -> string, item: Json, later: Json)
    requires item.JObj? && later.JObj?
    requires forall k :: k != ExcludedFromHash ==> Lookup(later.fields, k) == Lookup(item.fields, k)
    requires WillDownload(d, root, account, name, digest, item) && api.download(PdfUrl(account, name, item)).Ok?
    ensures var d2 := PdfStep(d, root, account, name, api, digest, item);
      && !WillDownload(d2, root, account, name, digest, later)
      && PdfStep(d2, root, account, name, api, digest, later) == d2
  {
    PdfStepSpec(d, root, account, name, api, digest, item);
    HashInputIff(item.fields, later.fields);
    assert Fingerprint(digest, later.fields) == Fingerprint(digest, item.fields);
    assert Lookup(later.fields, "id") == Lookup(item.fields, "id");
    assert Lookup(later.fields, "client_key") == Lookup(item.fields, "client_key");
  }

  /** PDF steps write only artifacts and the manifest. */
  lemma {:induction false} PdfFilesKeep(d: Disk, root: Path, account: Account, name: string, api: Api,
    digest: Canonical -> string, items: seq<Json>, q: Path)
    requires |q| != |root| + 4 && q != ManifestPath(root)
    ensures Keeps(d, PdfFiles(d, root, account, name, api, digest, items), q)
    decreases |items|
  {
    if items != [] {
      var d1 := PdfStep(d, root, account, name, api, digest, items[0]);
      assert Keeps(d, d1, q) by {
        if WillDownload(d, root, account, name, digest, items[0]) {
          var id := PyStr(Field(items[0], "id"));
          assert |ArtifactPath(root, account.id, name, id + ".pdf")| == |root| + 4;
        }
      }
      PdfFilesKeep(d1, root, account, name, api, digest, items[1..], q);
    }
  }

  // ------------------------------------------------------------ endpoints

  /** What `write_json` stores for the company: the account's company data, or null. */
  function CompanyDoc(account: Account): Json
  {
    if account.companyData.Some? then JObj(account.companyData.value) else JNull
  }

  /** `_backup_single_resource_endpoint`: every error is logged and swallowed. */
  function SingleResource(d: Disk, root: Path, account: Account, e: Endpoint, api: Api): Disk
  {
    if e.name == "company" then PutJson(d, root, account.id, e.name, "data.json", CompanyDoc(account))
    else
      var r := api.get(account.id, e.path);
      if r.Err? then d else PutJson(d, root, account.id, e.name, "data.json", r.value)
  }

  predicate IsPdfEndpoint(name: string)
  {
    name == "invoices" || name == "estimates"
  }

  /** The disk after list, item, nested and PDF steps for a collected listing. */
  function ListedEffect(d: Disk, root: Path, account: Account, e: Endpoint, api: Api, digest: Canonical -> string,
    c: Collection): Disk
  {
    var d1 := PutJson(d, root, account.id, e.name, "list.json", JArr(c.items));
    var d2 := ItemFiles(d1, root, account.id, e, c.items);
    var d3 := NestedFiles(d2, root, account.id, e, api, c.ids);
    if IsPdfEndpoint(e.name) then PdfFiles(d3, root, account, e.name, api, digest, c.items) else d3
  }

  /** `_backup_endpoint`: the new disk and the error it raises, if any. */
  function EndpointEffect(d: Disk, root: Path, account: Account, e: Endpoint, api: Api, digest: Canonical -> string)
    : (Disk, Option<BackupError>)
  {
    if IsSingleton(e) then (SingleResource(d, root, account, e, api), None)
    else
      var r := Collected(api.list(account.id, e.path));
      if r.Err? then (d, Some(r.error))
      else if r.value.items == [] then (d, None)
      else (ListedEffect(d, root, account, e, api, digest, r.value), None)
  }

  /** A singleton endpoint never fails: it stores `data.json` when it has data, and the
      company endpoint stores the account's company data without a request. */
  lemma SingletonSpec(d: Disk, root: Path, account: Account, e: Endpoint, api: Api, api2: Api, digest: Canonical -> string)
    requires IsSingleton(e)
    ensures EndpointEffect(d, root, account, e, api, digest).1.None?
    ensures e.name == "company" ==>
      && EndpointEffect(d, root, account, e, api, digest).0 == PutJson(d, root, account.id, e.name, "data.json", CompanyDoc(account))
      && EndpointEffect(d, root, account, e, api, digest) == EndpointEffect(d, root, account, e, api2, digest)
    ensures e.name != "company" ==> (EndpointEffect(d, root, account, e, api, digest).0 ==
      if api.get(account.id, e.path).Ok? then PutJson(d, root, account.id, e.name, "data.json", api.get(account.id, e.path).value)
      else d)
  {
  }

  /** A listing that fails is raised with nothing written; an empty one writes nothing. */
  lemma ListingFailureOrEmpty(d: Disk, root: Path, account: Account, e: Endpoint, api: Api, digest: Canonical -> string)
    requires !IsSingleton(e)
    ensures var r := Collected(api.list(account.id, e.path));
      && (r.Err? ==> EndpointEffect(d, root, account, e, api, digest) == (d, Some(r.error)))
      && (r.Ok? && r.value.items == [] ==> EndpointEffect(d, root, account, e, api, digest) == (d, None))
  {
  }

  /** No item of the listing is stored under the name `list.json`. */
  predicate NoItemNamedList(items: seq<Json>)
  {
    forall j :: 0 <= j < |items| && TruthyField(items[j], "id") ==> ItemFileName(Field(items[j], "id")) != "list.json"
  }

  /**
   * After a successful non-empty listing, `list.json` holds all collected
   * items, unless an item's id is the text "list" (its own file then
   * replaces the list).
   */
  lemma ListFileHoldsItems(d: Disk, root: Path, account: Account, e: Endpoint, api: Api, digest: Canonical -> string)
    requires !IsSingleton(e)
    requires var r := Collected(api.list(account.id, e.path)); r.Ok? && r.value.items != [] && NoItemNamedList(r.value.items)
    ensures var c := Collected(api.list(account.id, e.path)).value;
      var p := JsonPath(root, account.id, e.name, "list.json");
      var d2 := EndpointEffect(d, root, account, e, api, digest).0;
      p in d2.files && d2.files[p] == JsonFile(JArr(c.items))
  {
    var c := Collected(api.list(account.id, e.path)).value;
    var p := JsonPath(root, account.id, e.name, "list.json");
    var d1 := PutJson(d, root, account.id, e.name, "list.json", JArr(c.items));
    var d2 := ItemFiles(d1, root, account.id, e, c.items);
    var d3 := NestedFiles(d2, root, account.id, e, api, c.ids);
    if e.hasDetail {
      forall j | 0 <= j < |c.items| && TruthyField(c.items[j], "id")
        ensures p != JsonPath(root, account.id, e.name, ItemFileName(Field(c.items[j], "id")))
      {
        if p == JsonPath(root, account.id, e.name, ItemFileName(Field(c.items[j], "id"))) {
          JsonPathInjective(root, account.id, e.name, "list.json", account.id, e.name, ItemFileName(Field(c.items[j], "id")));
        }
      }
      ItemFilesKeep(d1, root, account.id, e.name, c.items, p);
    }
    forall f | p == JsonPath(root, account.id, e.name, f) ensures '_' !in f {
      JsonPathInjective(root, account.id, e.name, "list.json", account.id, e.name, f);
      assert '_' !in "list.json";
    }
    if !(!e.hasNested || e.nestedPaths.None? || e.nestedPaths.value == [] || c.ids == []) {
      NestedForTemplatesKeeps(d2, root, account.id, e.name, api, e.nestedPaths.value, c.ids, p);
    }
    if IsPdfEndpoint(e.name) {
      PdfFilesKeep(d3, root, account, e.name, api, digest, c.items, p);
    }
  }

  /** Only the invoice and estimate endpoints touch artifacts or the manifest. */
  lemma ManifestOnlyForPdfEndpoints(d: Disk, root: Path, account: Account, e: Endpoint, api: Api, digest: Canonical -> string)
    requires !IsPdfEndpoint(e.name)
    ensures EndpointEffect(d, root, account, e, api, digest).0.manifest == d.manifest
  {
    var r := Collected(api.list(account.id, e.path));
    if !IsSingleton(e) && r.Ok? && r.value.items != [] {
      var c := r.value;
      var d1 := PutJson(d, root, account.id, e.name, "list.json", JArr(c.items));
      var d2 := ItemFiles(d1, root, account.id, e, c.items);
      if e.hasDetail {
        ItemFilesKeep(d1, root, account.id, e.name, c.items, root);
      }
      if !(!e.hasNested || e.nestedPaths.None? || e.nestedPaths.value == [] || c.ids == []) {
        NestedForTemplatesKeeps(d2, root, account.id, e.name, api, e.nestedPaths.value, c.ids, root);
      }
    }
  }

  /** Paths no endpoint writes to: neither a JSON file, an artifact nor the manifest. */
  predicate OutsideAccounts(q: Path, root: Path)
  {
    |q| != |root| + 3 && |q| != |root| + 4 && q != ManifestPath(root)
  }

  lemma EndpointKeeps(d: Disk, root: Path, account: Account, e: Endpoint, api: Api, digest: Canonical -> string, q: Path)
    requires OutsideAccounts(q, root)
    ensures Keeps(d, EndpointEffect(d, root, account, e, api, digest).0, q)
  {
    var r := Collected(api.list(account.id, e.path));
    if !IsSingleton(e) && r.Ok? && r.value.items != [] {
      var c := r.value;
      var d1 := PutJson(d, root, account.id, e.name, "list.json", JArr(c.items));
      var d2 := ItemFiles(d1, root, account.id, e, c.items);
      var d3 := NestedFiles(d2, root, account.id, e, api, c.ids);
      if e.hasDetail {
        ItemFilesKeep(d1, root, account.id, e.name, c.items, q);
      }
      if !(!e.hasNested || e.nestedPaths.None? || e.nestedPaths.value == [] || c.ids == []) {
        NestedForTemplatesKeeps(d2, root, account.id, e.name, api, e.nestedPaths.value, c.ids, q);
      }
      if IsPdfEndpoint(e.name) {
        PdfFilesKeep(d3, root, account, e.name, api, digest, c.items, q);
      }
    }
  }

  // ------------------------------------------------------------- accounts

  /** `_backup_account` over the remaining endpoints: an authentication error
      stops the account and is raised, every other error is logged and skipped. */
  function AccountFrom(d: Disk, root: Path, account: Account, es: seq<Endpoint>, api: Api, digest: Canonical -> string)
    : (Disk, Option<BackupError>)
    decreases |es|
  {
    if es == [] then (d, None)
    else
      var (d1, err) := EndpointEffect(d, root, account, es[0], api, digest);
      if err.Some? && IsAuth(err.value) then (d1, err)
      else AccountFrom(d1, root, account, es[1..], api, digest)
  }

  function AccountEffect(d: Disk, root: Path, account: Account, api: Api, digest: Canonical -> string)
    : (Disk, Option<BackupError>)
  {
    AccountFrom(d, root, account, Descriptors(), api, digest)
  }

  /** The error an endpoint raises: that of its listing; singletons raise none. */
  function ListingError(account: Account, e: Endpoint, api: Api): Option<BackupError>
  {
    if IsSingleton(e) then None
    else
      var r := Collected(api.list(account.id, e.path));
      if r.Err? then Some(r.error) else None
  }

  /** Whatever the disk, an endpoint raises the error of its listing and no other. */
  lemma EndpointRaisesListingError(d: Disk, root: Path, account: Account, e: Endpoint, api: Api, digest: Canonical -> string)
    ensures EndpointEffect(d, root, account, e, api, digest).1 == ListingError(account, e, api)
  {
  }

  /** An account only ever raises an authentication error, and then it is
      the one the first failing endpoint raised. */
  lemma {:induction false} AccountRaisesOnlyAuth(d: Disk, root: Path, account: Account, es: seq<Endpoint>, api: Api,
    digest: Canonical -> string)
    ensures var err := AccountFrom(d, root, account, es, api, digest).1;
      err.Some? ==> (IsAuth(err.value) &&
        exists i :: 0 <= i < |es| && err == ListingError(account, es[i], api))
    decreases |es|
  {
    if es != [] {
      var (d1, err) := EndpointEffect(d, root, account, es[0], api, digest);
      EndpointRaisesListingError(d, root, account, es[0], api, digest);
      if err.Some? && IsAuth(err.value) {
      } else {
        AccountRaisesOnlyAuth(d1, root, account, es[1..], api, digest);
        var r := AccountFrom(d1, root, account, es[1..], api, digest).1;
        if r.Some? {
          var i :| 0 <= i < |es[1..]| && r == ListingError(account, es[1..][i], api);
          assert es[i + 1] == es[1..][i];
        }
      }
    }
  }

  /** When no endpoint fails with an authentication error, every endpoint is visited and the account raises nothing. */
  lemma {:induction false} NoAuthErrorNoRaise(d: Disk, root: Path, account: Account, es: seq<Endpoint>, api: Api,
    digest: Canonical -> string)
    requires forall i :: 0 <= i < |es| && ListingError(account, es[i], api).Some? ==>
      !IsAuth(ListingError(account, es[i], api).value)
    ensures AccountFrom(d, root, account, es, api, digest).1.None?
    decreases |es|
  {
    if es != [] {
      var (d1, err) := EndpointEffect(d, root, account, es[0], api, digest);
      EndpointRaisesListingError(d, root, account, es[0], api, digest);
      assert forall i :: 0 <= i < |es[1..]| ==> es[1..][i] == es[i + 1];
      NoAuthErrorNoRaise(d1, root, account, es[1..], api, digest);
    }
  }

  lemma {:induction false} AccountKeeps(d: Disk, root: Path, account: Account, es: seq<Endpoint>, api: Api,
    digest: Canonical -> string, q: Path)
    requires OutsideAccounts(q, root)
    ensures Keeps(d, AccountFrom(d, root, account, es, api, digest).0, q)
    decreases |es|
  {
    if es != [] {
      var (d1, err) := EndpointEffect(d, root, account, es[0], api, digest);
      EndpointKeeps(d, root, account, es[0], api, digest, q);
      AccountKeeps(d1, root, account, es[1..], api, digest, q);
    }
  }

  // ------------------------------------------------------------ backup_all

  function ProductName(p: Product): string
  {
    match p
    case Harvest => "harvest"
    case Forecast => "forecast"
  }

  /** `{"id": ..., "name": ..., "product": ...}` for the accounts list. */
  function Summary(a: Account): Json
  {
    JObj([("id", JNum(a.id)), ("name", JStr(a.name)), ("product", JStr(ProductName(a.product)))])
  }

  function Summaries(accounts: seq<Account>): (r: seq<Json>)
    ensures |r| == |accounts|
    ensures forall i :: 0 <= i < |r| ==> r[i] == Summary(accounts[i])
  {
    seq(|accounts|, i requires 0 <= i < |accounts| => Summary(accounts[i]))
  }

  function AccountsDoc(accounts: seq<Account>): Json
  {
    JObj([("accounts", JArr(Summaries(accounts)))])
  }

  /** The accounts in turn; an error raised by one account stops the run. */
  function AllFrom(d: Disk, root: Path, accounts: seq<Account>, api: Api, digest: Canonical -> string)
    : (Disk, Option<BackupError>)
    decreases |accounts|
  {
    if accounts == [] then (d, None)
    else
      var (d1, err) := AccountEffect(d, root, accounts[0], api, digest);
      if err.Some? then (d1, err) else AllFrom(d1, root, accounts[1..], api, digest)
  }

  /** `backup_all` given the accounts listing. */
  function BackupAllEffect(d: Disk, root: Path, listing: Result<seq<Account>, Client.ClientError>, api: Api,
    digest: Canonical -> string): (Disk, Option<BackupError>)
  {
    var found := DiscoverAccounts(listing);
    if found.Err? then (d, Some(ApiFailure(found.error)))
    else if found.value == [] then (d, Some(NoAccounts))
    else
      var d1 := Disk(d.files[AccountsPath(root) := JsonFile(AccountsDoc(found.value))], d.manifest);
      AllFrom(d1, root, found.value, api, digest)
  }

  lemma {:induction false} AllKeeps(d: Disk, root: Path, accounts: seq<Account>, api: Api, digest: Canonical -> string, q: Path)
    requires OutsideAccounts(q, root)
    ensures Keeps(d, AllFrom(d, root, accounts, api, digest).0, q)
    decreases |accounts|
  {
    if accounts != [] {
      AccountKeeps(d, root, accounts[0], Descriptors(), api, digest, q);
      AllKeeps(AccountEffect(d, root, accounts[0], api, digest).0, root, accounts[1..], api, digest, q);
    }
  }

  /**
   * A failed discovery is raised and an empty one raises the no-accounts
   * error, both before anything is written; otherwise `accounts.json` lists
   * the Harvest accounts, and no account's backup overwrites it.
   */
  lemma BackupAllSpec(d: Disk, root: Path, listing: Result<seq<Account>, Client.ClientError>, api: Api,
    digest: Canonical -> string)
    ensures listing.Err? ==> BackupAllEffect(d, root, listing, api, digest) == (d, Some(ApiFailure(listing.error)))
    ensures listing.Ok? && HarvestOnly(listing.value) == [] ==>
      BackupAllEffect(d, root, listing, api, digest) == (d, Some(NoAccounts))
    ensures listing.Ok? && HarvestOnly(listing.value) != [] ==>
      var d2 := BackupAllEffect(d, root, listing, api, digest).0;
      AccountsPath(root) in d2.files && d2.files[AccountsPath(root)] == JsonFile(AccountsDoc(HarvestOnly(listing.value)))
  {
    if listing.Ok? && HarvestOnly(listing.value) != [] {
      var accounts := HarvestOnly(listing.value);
      var d1 := Disk(d.files[AccountsPath(root) := JsonFile(AccountsDoc(accounts))], d.manifest);
      PathKindsDisjoint(root, 0, "", "", 0, "", "");
      AllKeeps(d1, root, accounts, api, digest, AccountsPath(root));
    }
  }

  /** An account's authentication error stops the run: later accounts are not visited. */
  lemma AuthErrorStopsRun(d: Disk, root: Path, accounts: seq<Account>, api: Api, digest: Canonical -> string)
    requires accounts != [] && AccountEffect(d, root, accounts[0], api, digest).1.Some?
    ensures AllFrom(d, root, accounts, api, digest) == AccountEffect(d, root, accounts[0], api, digest)
    ensures IsAuth(AllFrom(d, root, accounts, api, digest).1.value)
  {
    AccountRaisesOnlyAuth(d, root, accounts[0], Descriptors(), api, digest);
  }
}
