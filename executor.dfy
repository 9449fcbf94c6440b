/**
 * The backup executor: walks the accounts and the endpoint table and issues
 * the writer calls.  Each method is proved to leave the writer's disk as the
 * corresponding function of `Backup` says.
 */
module Executor {
  import opened Wrappers
  import opened Strings
  import opened Json
  import opened Endpoints
  import opened Writer
  import opened Accounts
  import opened Backup
  import Client

  class BackupExecutor {
    const writer: BackupWriter
    const api: Api
    /** Serialises (sorted keys) and hashes an item for the PDF fingerprint. */
    const digest: Canonical -> string

    constructor(writer: BackupWriter, api: Api, digest: Canonical -> string)
      ensures this.writer == writer && this.api == api && this.digest == digest
    {
      this.writer := writer;
      this.api := api;
      this.digest := digest;
    }

    /** The files and manifest the writer holds now. */
    function Current(): Disk
      reads writer
    {
      Disk(writer.files, writer.manifest)
    }

    /** `_collect_items_from_pagination`: the dict items and their truthy ids. */
    method Collect(account: Account, e: Endpoint) returns (r: Result<Collection, BackupError>)
      ensures r == Collected(api.list(account.id, e.path))
    {
      var drained := api.list(account.id, e.path);
      var items: seq<Json> := [];
      var ids: seq<Json> := [];
      var i := 0;
      while i < |drained.items|
        invariant 0 <= i <= |drained.items|
        invariant CollectFrom(drained.items, Collection([], [])) == CollectFrom(drained.items[i..], Collection(items, ids))
      {
        var item := drained.items[i];
        assert drained.items[i..][1..] == drained.items[i + 1..];
        if item.JObj? {
          var id := Lookup(item.fields, "id");
          if id.Some? && Truthy(id.value) {
            if !Hashable(id.value) {
              return Err(UnhashableId);
            }
            if id.value !in ids {
              ids := ids + [id.value];
            }
          }
          items := items + [item];
        }
        i := i + 1;
      }
      if drained.error.Some? {
        return Err(ApiFailure(drained.error.value));
      }
      return Ok(Collection(items, ids));
    }

    /** `_backup_single_resource_endpoint` */
    method BackupSingleResource(account: Account, e: Endpoint)
      modifies writer
      ensures Current() == SingleResource(old(Current()), writer.root, account, e, api)
    {
      if e.name == "company" {
        var _ := writer.WriteJson(account.id, e.name, "data.json", CompanyDoc(account));
      } else {
        var data := api.get(account.id, e.path);
        if data.Ok? {
          var _ := writer.WriteJson(account.id, e.name, "data.json", data.value);
        }
      }
    }

    /** One item of `_backup_individual_items`. */
    method BackupItem(account: Account, name: string, item: Json)
      modifies writer
      ensures Current() == ItemStep(old(Current()), writer.root, account.id, name, item)
    {
      if TruthyField(item, "id") {
        var _ := writer.WriteJson(account.id, name, ItemFileName(Field(item, "id")), item);
      }
    }

    /** `_backup_individual_items` */
    method BackupIndividualItems(account: Account, e: Endpoint, items: seq<Json>)
      modifies writer
      ensures Current() == ItemFiles(old(Current()), writer.root, account.id, e, items)
    {
      if !e.hasDetail {
        return;
      }
      ghost var start := Current();
      var i := 0;
      while i < |items|
        invariant 0 <= i <= |items|
        invariant ItemFilesFrom(start, writer.root, account.id, e.name, items)
          == ItemFilesFrom(Current(), writer.root, account.id, e.name, items[i..])
      {
        assert items[i..][1..] == items[i + 1..];
        BackupItem(account, e.name, items[i]);
        i := i + 1;
      }
      assert items[i..] == [];
    }

    /** One template over all ids. */
    method BackupNestedTemplate(account: Account, name: string, template: string, ids: seq<Json>)
      modifies writer
      ensures Current() == NestedForTemplate(old(Current()), writer.root, account.id, name, api, template, ids)
    {
      ghost var start := Current();
      var j := 0;
      while j < |ids|
        invariant 0 <= j <= |ids|
        invariant NestedForTemplate(start, writer.root, account.id, name, api, template, ids)
          == NestedForTemplate(Current(), writer.root, account.id, name, api, template, ids[j..])
      {
        var id := ids[j];
        assert ids[j..][1..] == ids[j + 1..];
        var path := NestedPath(template, id);
        var nested := api.list(account.id, path);
        ghost var before := Current();
        if nested.error.None? && nested.items != [] {
          var _ := writer.WriteJson(account.id, name, NestedFileName(id, path), JArr(nested.items));
          assert Current() == PutJson(before, writer.root, account.id, name, NestedFileName(id, path), JArr(nested.items));
        }
        j := j + 1;
      }
      assert ids[j..] == [];
    }

    /** `_backup_nested_resources` */
    method BackupNestedResources(account: Account, e: Endpoint, ids: seq<Json>)
      modifies writer
      ensures Current() == NestedFiles(old(Current()), writer.root, account.id, e, api, ids)
    {
      if !e.hasNested || e.nestedPaths.None? || e.nestedPaths.value == [] || ids == [] {
        return;
      }
      var templates := e.nestedPaths.value;
      ghost var start := Current();
      var i := 0;
      while i < |templates|
        invariant 0 <= i <= |templates|
        invariant NestedForTemplates(start, writer.root, account.id, e.name, api, templates, ids)
          == NestedForTemplates(Current(), writer.root, account.id, e.name, api, templates[i..], ids)
      {
        assert templates[i..][1..] == templates[i + 1..];
        BackupNestedTemplate(account, e.name, templates[i], ids);
        i := i + 1;
      }
      assert templates[i..] == [];
    }

    /** One item of `_backup_pdfs`: check, download, write. */
    method BackupPdf(account: Account, name: string, item: Json)
      modifies writer
      ensures Current() == PdfStep(old(Current()), writer.root, account, name, api, digest, item)
    {
      if TruthyField(item, "id") && TruthyField(item, "client_key")
        && account.subdomain.Some? && account.subdomain.value != ""
      {
        var id := PyStr(Field(item, "id"));
        var hash := Fingerprint(digest, item.fields);
        var filename := id + ".pdf";
        if NeedsDownload(writer.files, writer.manifest, writer.root, account.id, name, id, filename, hash) {
          var url := ClientLinkUrl(account.subdomain.value, name, PyStr(Field(item, "client_key")));
          var pdf := api.download(url);
          if pdf.Ok? {
            var _ := writer.WriteBinary(account.id, name, id, filename, pdf.value, Some(hash));
          }
        }
      }
    }

    /** `_backup_pdfs` */
    method BackupPdfs(account: Account, name: string, items: seq<Json>)
      modifies writer
      ensures Current() == PdfFiles(old(Current()), writer.root, account, name, api, digest, items)
    {
      ghost var start := Current();
      var i := 0;
      while i < |items|
        invariant 0 <= i <= |items|
        invariant PdfFiles(start, writer.root, account, name, api, digest, items)
          == PdfFiles(Current(), writer.root, account, name, api, digest, items[i..])
      {
        assert items[i..][1..] == items[i + 1..];
        BackupPdf(account, name, items[i]);
        i := i + 1;
      }
      assert items[i..] == [];
    }

    /** `_backup_endpoint` */
    method BackupEndpoint(account: Account, e: Endpoint) returns (err: Option<BackupError>)
      modifies writer
      ensures (Current(), err) == EndpointEffect(old(Current()), writer.root, account, e, api, digest)
    {
      if !e.hasList && !e.hasDetail {
        BackupSingleResource(account, e);
        return None;
      }
      var collected := Collect(account, e);
      if collected.Err? {
        return Some(collected.error);
      }
      var c := collected.value;
      if c.items == [] {
        return None;
      }
      var _ := writer.WriteJson(account.id, e.name, "list.json", JArr(c.items));
      BackupIndividualItems(account, e, c.items);
      BackupNestedResources(account, e, c.ids);
      if e.name == "invoices" || e.name == "estimates" {
        BackupPdfs(account, e.name, c.items);
      }
      return None;
    }

    /** `_backup_account`: every endpoint of the table in order; an
        authentication error is raised at once, any other is skipped. */
    method BackupAccount(account: Account) returns (err: Option<BackupError>)
      modifies writer
      ensures (Current(), err) == AccountEffect(old(Current()), writer.root, account, api, digest)
    {
      var es := Descriptors();
      ghost var start := Current();
      var i := 0;
      while i < |es|
        invariant 0 <= i <= |es|
        invariant AccountFrom(start, writer.root, account, es, api, digest)
          == AccountFrom(Current(), writer.root, account, es[i..], api, digest)
      {
        assert es[i..][1..] == es[i + 1..];
        var failure := BackupEndpoint(account, es[i]);
        if failure.Some? && IsAuth(failure.value) {
          return failure;
        }
        i := i + 1;
      }
      assert es[i..] == [];
      return None;
    }

    /** `backup_all`, given what the accounts service answered. */
    method BackupAll(listing: Result<seq<Account>, Client.ClientError>) returns (err: Option<BackupError>)
      modifies writer
      ensures (Current(), err) == BackupAllEffect(old(Current()), writer.root, listing, api, digest)
    {
      var found := DiscoverAccounts(listing);
      if found.Err? {
        return Some(ApiFailure(found.error));
      }
      var accounts := found.value;
      if accounts == [] {
        return Some(NoAccounts);
      }
      var _ := writer.WriteAccountsList(Summaries(accounts));
      ghost var start := Current();
      var i := 0;
      while i < |accounts|
        invariant 0 <= i <= |accounts|
        invariant AllFrom(start, writer.root, accounts, api, digest)
          == AllFrom(Current(), writer.root, accounts[i..], api, digest)
      {
        assert accounts[i..][1..] == accounts[i + 1..];
        var failure := BackupAccount(accounts[i]);
        if failure.Some? {
          return failure;
        }
        i := i + 1;
      }
      assert accounts[i..] == [];
      return None;
    }
  }
}
