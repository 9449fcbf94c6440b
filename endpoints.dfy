/** The static table of Harvest API v2 endpoints that drives the backup. */
module Endpoints {
  import opened Wrappers
  import Strings

  /** One endpoint descriptor; `nestedPaths` are path templates holding `{id}`. */
  datatype Endpoint = Endpoint(
    path: string,
    name: string,
    hasList: bool,
    hasDetail: bool,
    hasNested: bool,
    nestedPaths: Option<seq<string>>)

  /** The dataclass constructor with its defaults: a listable resource with
      per-item files and no nested resources. */
  function Plain(path: string, name: string): (e: Endpoint)
    ensures e.path == path && e.name == name
    ensures e.hasList && e.hasDetail && !e.hasNested && e.nestedPaths.None?
  {
    Endpoint(path, name, true, true, false, None)
  }

  function Nested(path: string, name: string, templates: seq<string>): Endpoint
  {
    Endpoint(path, name, true, true, true, Some(templates))
  }

  /** Neither a list nor per-item files: fetched once and stored as `data.json`. */
  predicate IsSingleton(e: Endpoint)
  {
    !e.hasList && !e.hasDetail
  }

  /** `ENDPOINTS`, in its insertion order (the order the executor visits it). */
  function Table(): seq<(string, Endpoint)>
  {
    var t := [
      ("clients", Plain("/v2/clients", "clients")),
      ("contacts", Plain("/v2/contacts", "contacts")),
      ("projects", Nested("/v2/projects", "projects",
        ["/v2/projects/{id}/user_assignments", "/v2/projects/{id}/task_assignments"])),
      ("tasks", Plain("/v2/tasks", "tasks")),
      ("time_entries", Plain("/v2/time_entries", "time_entries")),
      ("users", Nested("/v2/users", "users",
        ["/v2/users/{id}/billable_rates", "/v2/users/{id}/cost_rates",
         "/v2/users/{id}/project_assignments", "/v2/users/{id}/teammates"])),
      ("users_me", Endpoint("/v2/users/me", "users_me", false, false, false, None)),
      ("users_me_project_assignments",
        Endpoint("/v2/users/me/project_assignments", "users_me_project_assignments", true, false, false, None)),
      ("expenses", Plain("/v2/expenses", "expenses")),
      ("expense_categories", Plain("/v2/expense_categories", "expense_categories")),
      ("invoices", Plain("/v2/invoices", "invoices")),
      ("invoice_item_categories", Plain("/v2/invoice_item_categories", "invoice_item_categories")),
      ("estimates", Plain("/v2/estimates", "estimates")),
      ("estimate_item_categories", Plain("/v2/estimate_item_categories", "estimate_item_categories")),
      ("roles", Plain("/v2/roles", "roles")),
      ("company", Endpoint("/v2/company", "company", false, false, false, None))
    ];
    t
  }

  lemma TableKeysAreNames()
    ensures forall i :: 0 <= i < |Table()| ==> Table()[i].0 == Table()[i].1.name
  {
  }

  lemma TableKeysDistinct()
    ensures forall i, j :: 0 <= i < j < |Table()| ==> Table()[i].0 != Table()[j].0
  {
  }

  lemma SingletonsAreUsersMeAndCompany()
    ensures forall i :: 0 <= i < |Table()| ==>
              (IsSingleton(Table()[i].1) <==> Table()[i].0 == "users_me" || Table()[i].0 == "company")
  {
  }

  lemma NestedPathsExactlyWhenNested()
    ensures forall i :: 0 <= i < |Table()| ==>
              (Table()[i].1.nestedPaths.Some? <==> Table()[i].1.hasNested) &&
              (Table()[i].1.hasNested <==> Table()[i].0 == "projects" || Table()[i].0 == "users")
  {
  }

  /** Every nested template (those of projects and users) holds the `{id}` placeholder. */
  lemma TemplatesHoldId()
    ensures Table()[2].1.nestedPaths.Some? && Table()[5].1.nestedPaths.Some?
    ensures forall k :: 0 <= k < |Table()[2].1.nestedPaths.value| ==>
              Strings.Contains(Table()[2].1.nestedPaths.value[k], "{id}")
    ensures forall k :: 0 <= k < |Table()[5].1.nestedPaths.value| ==>
              Strings.Contains(Table()[5].1.nestedPaths.value[k], "{id}")
  {
    var projects, users := Table()[2].1.nestedPaths.value, Table()[5].1.nestedPaths.value;
    IdAt(projects[0], 13);
    IdAt(projects[1], 13);
    IdAt(users[0], 10);
    IdAt(users[1], 10);
    IdAt(users[2], 10);
    IdAt(users[3], 10);
  }

  lemma IdAt(s: string, i: nat)
    requires i + 4 <= |s| && s[i] == '{' && s[i + 1] == 'i' && s[i + 2] == 'd' && s[i + 3] == '}'
    ensures Strings.Contains(s, "{id}")
  {
    assert s[i..i + 4] == "{id}";
    assert Strings.OccursAt(s, "{id}", i);
  }

  /** The descriptors in table order (`ENDPOINTS.values()`). */
  function Descriptors(): (ds: seq<Endpoint>)
    ensures |ds| == |Table()|
    ensures forall i :: 0 <= i < |ds| ==> ds[i] == Table()[i].1
  {
    seq(|Table()|, i requires 0 <= i < |Table()| => Table()[i].1)
  }

  function Find(t: seq<(string, Endpoint)>, name: string): (r: Option<Endpoint>)
    ensures r.None? <==> forall i :: 0 <= i < |t| ==> t[i].0 != name
    ensures r.Some? ==> exists i :: 0 <= i < |t| && t[i] == (name, r.value)
  {
    if t == [] then None
    else if t[0].0 == name then Some(t[0].1)
    else Find(t[1..], name)
  }

  /** `get_endpoint(name)`: the descriptor registered under `name`, if any. */
  function GetEndpoint(name: string): (r: Option<Endpoint>)
    ensures r.None? <==> forall i :: 0 <= i < |Table()| ==> Table()[i].0 != name
    ensures r.Some? ==> r.value.name == name && r.value in Descriptors()
  {
    Find(Table(), name)
  }

  lemma {:induction false} FindPresent(t: seq<(string, Endpoint)>, i: nat)
    requires i < |t|
    requires forall a :: 0 <= a < i ==> t[a].0 != t[i].0
    ensures Find(t, t[i].0) == Some(t[i].1)
  {
    if i > 0 {
      assert t[0].0 != t[i].0;
      assert forall a :: 0 <= a < i - 1 ==> t[1..][a] == t[a + 1];
      FindPresent(t[1..], i - 1);
    }
  }

  /** `get_endpoint` returns the table entry registered under that key. */
  lemma GetEndpointFindsEntry(i: nat)
    requires i < |Table()|
    ensures GetEndpoint(Table()[i].0) == Some(Table()[i].1)
  {
    TableKeysDistinct();
    FindPresent(Table(), i);
  }

  /** The current user's project assignments are listed but get no per-item files. */
  lemma UsersMeProjectAssignmentsIsListOnly()
    ensures var e := GetEndpoint("users_me_project_assignments");
            e.Some? && e.value.hasList && !e.value.hasDetail && !e.value.hasNested
  {
    FindPresent(Table(), 7);
  }
}
