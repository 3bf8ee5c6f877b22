/** The Bugzilla connector (`BugzillaEnrich`): SortingHat identities from
    Bugzilla user fields, the enriched issue document, and the bulk upload
    of enriched issues. Presence tests (`'assigned_to' in issue`) look at the
    raw item itself while the values are read from `item["data"]`, as in the
    connector. */
module Bugzilla {
  import opened PyJson
  import opened Enrich
  import opened Bulk

  // ----- get_sh_identity -----

  /** `fill_list_identity`: the identity taken from the first user of a
      Bugzilla user list. */
  function FillListIdentity(identity: Dict, userList: Json): (r: Result<Dict>)
    ensures r.Ok? && IdentityFields <= identity.Keys ==> r.value.Keys == identity.Keys
  {
    var first :- At(userList, 0);
    var text :- Get(first, "__text__");
    var hasAt :- Contains(text, "@");
    var withEmail := if hasAt then identity["email" := text] else identity;
    var withUsername := withEmail["username" := text];
    var hasName :- Contains(first, "name");
    if hasName then
      var name :- Get(first, "name");
      Ok(withUsername["name" := name])
    else
      Ok(withUsername)
  }

  function FillIfPresent(identity: Dict, user: Json, role: string): (r: Result<Dict>)
    ensures r.Ok? && IdentityFields <= identity.Keys ==> r.value.Keys == identity.Keys
  {
    var present :- Contains(user, role);
    if present then
      var userList :- Get(user, role);
      FillListIdentity(identity, userList)
    else
      Ok(identity)
  }

  /** The roles whose value is a Bugzilla user list. */
  predicate ListRole(role: string) {
    role == "reporter" || role == "assigned_to" || role == "who" || role == "qa_contact"
  }

  /** The keys `get_sh_identity` reads. */
  predicate RecognisedKey(key: string) {
    ListRole(key) || key == "Who" || key == "changed_by"
  }

  /** `get_sh_identity`: always exactly name, email and username; all None
      for a user with none of the recognised keys; `changed_by`, read last,
      decides the name, and `Who` the username unless `qa_contact`, read
      after it, is there too. */
  function ShIdentity(user: Json): (r: Result<Dict>)
    ensures r.Ok? ==> r.value.Keys == IdentityFields
    ensures user.Object? && (forall k :: k in user.fields ==> !RecognisedKey(k)) ==> r == Ok(EmptyIdentity())
    ensures user.Object? && r.Ok? && "changed_by" in user.fields ==> r.value["name"] == user.fields["changed_by"]
    ensures user.Object? && r.Ok? && "Who" in user.fields && "qa_contact" !in user.fields ==>
      r.value["username"] == user.fields["Who"]
  {
    var afterReporter :- FillIfPresent(EmptyIdentity(), user, "reporter");
    var afterAssigned :- FillIfPresent(afterReporter, user, "assigned_to");
    var afterWho :- FillIfPresent(afterAssigned, user, "who");
    var hasWho :- Contains(user, "Who");
    var afterUsername :-
      if hasWho then (var who :- Get(user, "Who"); Ok(afterWho["username" := who])) else Ok(afterWho);
    var afterQa :- FillIfPresent(afterUsername, user, "qa_contact");
    var hasChangedBy :- Contains(user, "changed_by");
    if hasChangedBy then
      var changedBy :- Get(user, "changed_by");
      Ok(afterQa["name" := changedBy])
    else
      Ok(afterQa)
  }

  /** `get_sh_identity`, statement by statement. */
  method GetShIdentity(user: Json) returns (r: Result<Dict>)
    ensures r == ShIdentity(user)
  {
    var identity := NoneIdentity();
    identity :- FillIfPresent(identity, user, "reporter");
    identity :- FillIfPresent(identity, user, "assigned_to");
    identity :- FillIfPresent(identity, user, "who");
    var hasWho :- Contains(user, "Who");
    if hasWho {
      var who :- Get(user, "Who");
      identity := identity["username" := who];
    }
    identity :- FillIfPresent(identity, user, "qa_contact");
    var hasChangedBy :- Contains(user, "changed_by");
    if hasChangedBy {
      var changedBy :- Get(user, "changed_by");
      identity := identity["name" := changedBy];
    }
    r := Ok(identity);
  }

  /** The identity of a one-role user whose list starts with `first`:
      username is its `__text__`, email that text only when it contains an
      '@', name the user's `name` only when it has one. */
  function ListUserIdentity(first: Dict, text: string): (id: Dict)
    ensures id.Keys == IdentityFields
  {
    map["name" := if "name" in first then first["name"] else Null,
        "email" := if '@' in text then Str(text) else Null,
        "username" := Str(text)]
  }

  /** `fill_list_identity` on the empty identity, for a list that starts with `first`. */
  lemma FillFirstUser(first: Dict, text: string, rest: seq<Json>)
    requires "__text__" in first && first["__text__"] == Str(text)
    ensures FillListIdentity(EmptyIdentity(), List([Object(first)] + rest)) == Ok(ListUserIdentity(first, text))
  {
    CharSubstring('@', text);
    var e := EmptyIdentity();
    var withEmail := if '@' in text then e["email" := Str(text)] else e;
    var withUsername := withEmail["username" := Str(text)];
    var filled := if "name" in first then withUsername["name" := first["name"]] else withUsername;
    assert At(List([Object(first)] + rest), 0) == Ok(Object(first));
    assert FillListIdentity(e, List([Object(first)] + rest)) == Ok(filled);
    assert filled == ListUserIdentity(first, text);
  }

  /** A user with one list role is identified by the first user of the list alone. */
  lemma ShIdentityOfListRole(role: string, first: Dict, text: string, rest: seq<Json>)
    requires ListRole(role) && "__text__" in first && first["__text__"] == Str(text)
    ensures ShIdentity(Object(map[role := List([Object(first)] + rest)])) == Ok(ListUserIdentity(first, text))
  {
    var user := Object(map[role := List([Object(first)] + rest)]);
    var filled := FillListIdentity(EmptyIdentity(), List([Object(first)] + rest));
    FillFirstUser(first, text, rest);
    if role == "reporter" {
      assert FillIfPresent(EmptyIdentity(), user, "reporter") == filled;
    } else {
      assert FillIfPresent(EmptyIdentity(), user, "reporter") == Ok(EmptyIdentity());
    }
  }

  // ----- get_item_sh -----

  /** The names of the three SortingHat fields of one role. */
  datatype RoleKeys = RoleKeys(uuid: string, name: string, orgName: string) {
    function Keys(): set<string> { {uuid, name, orgName} }
  }

  const AssignedToKeys := RoleKeys("assigned_to_uuid", "assigned_to_name", "assigned_to_org_name")
  const ReporterKeys := RoleKeys("reporter_uuid", "reporter_name", "reporter_org_name")

  /** The identity of `role`, built as `get_sh_identity({role: data[role]})`. */
  function RoleIdentity(item: Dict, role: string): (r: Result<Dict>)
    ensures r.Ok? ==> r.value.Keys == IdentityFields
  {
    var data :- Field(item, "data");
    var users :- Get(data, role);
    ShIdentity(Object(map[role := users]))
  }

  /** The fields of one role are the uuid of its identity, its name and the
      organisation of the uuid's first enrollment (None without one). */
  ghost predicate RoleResolved(sh: SortingHat, item: Dict, e: Dict, role: string, keys: RoleKeys) {
    var identity := RoleIdentity(item, role);
    && identity.Ok?
    && keys.Keys() <= e.Keys
    && e[keys.uuid] == sh.uuid(identity.value, sh.connector)
    && e[keys.name] == identity.value["name"]
    && var es := sh.enrollments(e[keys.uuid]);
       e[keys.orgName] == if |es| > 0 then es[0].organizationName else Null
  }

  /** One of the two blocks of `get_item_sh`. */
  function RoleSh(sh: SortingHat, item: Dict, role: string, keys: RoleKeys): (r: Result<Dict>)
    requires keys.uuid != keys.name && keys.uuid != keys.orgName && keys.name != keys.orgName
    ensures r.Ok? <==> RoleIdentity(item, role).Ok?
    ensures r.Ok? ==> r.value.Keys == keys.Keys() && RoleResolved(sh, item, r.value, role, keys)
  {
    var identity :- RoleIdentity(item, role);
    var uuid := sh.uuid(identity, sh.connector);
    Ok(map[keys.uuid := uuid,
           keys.name := identity["name"],
           keys.orgName := FirstOrgName(sh.enrollments(uuid))])
  }

  /** `get_item_sh`: `assigned_to_*` and `reporter_*` fields, each trio present
      exactly when the raw item has that role, and resolved through the
      identity of that role alone. */
  function ItemSh(sh: SortingHat, item: Dict): (r: Result<Dict>)
    ensures r.Ok? ==> r.value.Keys == (if "assigned_to" in item then AssignedToKeys.Keys() else {})
                                    + (if "reporter" in item then ReporterKeys.Keys() else {})
    ensures r.Ok? && "assigned_to" in item ==> RoleResolved(sh, item, r.value, "assigned_to", AssignedToKeys)
    ensures r.Ok? && "reporter" in item ==> RoleResolved(sh, item, r.value, "reporter", ReporterKeys)
  {
    var assignedSh :- (if "assigned_to" in item then RoleSh(sh, item, "assigned_to", AssignedToKeys) else Ok(map[]));
    var reporterSh :- (if "reporter" in item then RoleSh(sh, item, "reporter", ReporterKeys) else Ok(map[]));
    assert AssignedToKeys.Keys() !! ReporterKeys.Keys();
    Ok(assignedSh + reporterSh)
  }

  // ----- get_item_project -----

  /** `data[key][0]['__text__']`, the shape of most Bugzilla fields. */
  function Text(data: Json, key: string): (r: Result<Json>)
    ensures r.Ok? ==> data.Object? && key in data.fields
  {
    var values :- Get(data, key);
    var first :- At(values, 0);
    Get(first, "__text__")
  }

  function ProductText(item: Dict): Result<Json> {
    var data :- Field(item, "data");
    Text(data, "product")
  }

  /** `get_item_project`: the project of repository
      `origin + "/buglist.cgi?product=" + product` under data source "its",
      in a one-key dict; None when the map has no such entry. */
  function ItemProject(pm: ProjectsMap, item: Dict): (r: Result<Dict>)
    ensures r.Ok? <==> "origin" in item && item["origin"].Str? && ProductText(item).Ok? && ProductText(item).value.Str?
    ensures r.Ok? ==>
      var repo := item["origin"].s + "/buglist.cgi?product=" + ProductText(item).value.s;
      r.value == map["project" := if "its" in pm && repo in pm["its"] then pm["its"][repo] else Null]
  {
    var url :- Field(item, "origin");
    var product :- ProductText(item);
    var urlText :- AsStr(url);
    var productText :- AsStr(product);
    var repo := urlText + "/buglist.cgi?product=" + productText;
    Ok(map["project" := LookupProject(pm, "its", repo)])
  }

  /** A miss in the projects map is never an error: whether the lookup
      succeeds does not depend on the map. */
  lemma ProjectMissIsNotFatal(pm: ProjectsMap, pm': ProjectsMap, item: Dict)
    ensures ItemProject(pm, item).Ok? == ItemProject(pm', item).Ok?
    ensures ItemProject(map[], item).Ok? ==> ItemProject(map[], item).value == map["project" := Null]
  {
  }

  // ----- get_identities -----

  /** The elements of `item["data"][key]` that a `for` loop visits. */
  function Elements(item: Dict, key: string): Result<seq<Json>> {
    var data :- Field(item, "data");
    var values :- Get(data, key);
    Iter(values)
  }

  /** `[get_sh_identity(u) for u in users]`, stopping at the first exception. */
  function IdentitiesOf(users: seq<Json>): (r: Result<seq<Dict>>)
    ensures r.Ok? ==> |r.value| == |users| && forall i :: 0 <= i < |users| ==> ShIdentity(users[i]) == Ok(r.value[i])
    decreases |users|
  {
    if users == [] then Ok([])
    else
      var head :- ShIdentity(users[0]);
      var tail :- IdentitiesOf(users[1..]);
      Ok([head] + tail)
  }

  /** The identities of the items of `item["data"][key]`, one per item. */
  function ListIdentities(item: Dict, key: string): Result<seq<Dict>> {
    var users :- Elements(item, key);
    IdentitiesOf(users)
  }

  /** The identities of the activity events, when the item has an activity. */
  function ActivityIdentities(item: Dict): Result<seq<Dict>> {
    if "activity" in item then ListIdentities(item, "activity") else Ok([])
  }

  /** The identities of the comments or, without comments, of the first of
      assigned_to, reporter and qa_contact the item has. */
  function LaterIdentities(item: Dict): Result<seq<Dict>> {
    if "long_desc" in item then ListIdentities(item, "long_desc")
    else if FallbackRole(item).Some? then (var id :- RoleIdentity(item, FallbackRole(item).value); Ok([id]))
    else Ok([])
  }

  /** What `get_identities` returns or raises. */
  function Identities(item: Dict): Result<seq<Dict>> {
    var fromActivity :- ActivityIdentities(item);
    var rest :- LaterIdentities(item);
    Ok(fromActivity + rest)
  }

  /** The first of assigned_to, reporter and qa_contact the item has. */
  function FallbackRole(item: Dict): Option<string> {
    if "assigned_to" in item then Some("assigned_to")
    else if "reporter" in item then Some("reporter")
    else if "qa_contact" in item then Some("qa_contact")
    else None
  }

  /** `get_identities` lists one identity per activity event, then one per
      comment; without comments, at most one identity, that of the first of
      assigned_to, reporter and qa_contact present. */
  lemma IdentitiesLayout(item: Dict)
    requires Identities(item).Ok?
    ensures var ids := Identities(item).value;
      var events := if "activity" in item then Elements(item, "activity").value else [];
      && |events| <= |ids|
      && (forall i :: 0 <= i < |events| ==> ShIdentity(events[i]) == Ok(ids[i]))
      && ("long_desc" in item ==>
            var comments := Elements(item, "long_desc").value;
            |ids| == |events| + |comments| &&
            forall i :: 0 <= i < |comments| ==> ShIdentity(comments[i]) == Ok(ids[|events| + i]))
      && ("long_desc" !in item ==>
            |ids| == |events| + (if FallbackRole(item).Some? then 1 else 0) &&
            (FallbackRole(item).Some? ==> RoleIdentity(item, FallbackRole(item).value) == Ok(ids[|events|])))
  {
    IdentitiesLead(item);
    IdentitiesComments(item);
    IdentitiesFallback(item);
  }

  /** The activity events' identities lead the list. */
  lemma IdentitiesLead(item: Dict)
    requires Identities(item).Ok?
    ensures var ids := Identities(item).value;
      var events := if "activity" in item then Elements(item, "activity").value else [];
      |events| <= |ids| && forall i :: 0 <= i < |events| ==> ShIdentity(events[i]) == Ok(ids[i])
  {
    var fromActivity := ActivityIdentities(item).value;
    var rest := LaterIdentities(item).value;
    assert Identities(item).value == fromActivity + rest;
    var events := if "activity" in item then Elements(item, "activity").value else [];
    ActivityLayout(item);
    LayoutJoined(events, fromActivity, rest);
  }

  /** With comments, the comments' identities follow the events' ones. */
  lemma IdentitiesComments(item: Dict)
    requires Identities(item).Ok?
    ensures var ids := Identities(item).value;
      var events := if "activity" in item then Elements(item, "activity").value else [];
      "long_desc" in item ==>
        var comments := Elements(item, "long_desc").value;
        |ids| == |events| + |comments| &&
        forall i :: 0 <= i < |comments| ==> ShIdentity(comments[i]) == Ok(ids[|events| + i])
  {
    var fromActivity := ActivityIdentities(item).value;
    var rest := LaterIdentities(item).value;
    assert Identities(item).value == fromActivity + rest;
    var events := if "activity" in item then Elements(item, "activity").value else [];
    ActivityLayout(item);
    LaterLayout(item);
    if "long_desc" in item {
      var comments := Elements(item, "long_desc").value;
      forall i | 0 <= i < |comments|
        ensures ShIdentity(comments[i]) == Ok((fromActivity + rest)[|events| + i])
      {
        assert (fromActivity + rest)[|events| + i] == rest[i];
      }
    }
  }

  /** Without comments, at most the fallback role's identity follows. */
  lemma IdentitiesFallback(item: Dict)
    requires Identities(item).Ok?
    ensures var ids := Identities(item).value;
      var events := if "activity" in item then Elements(item, "activity").value else [];
      "long_desc" !in item ==>
        |ids| == |events| + (if FallbackRole(item).Some? then 1 else 0) &&
        (FallbackRole(item).Some? ==> RoleIdentity(item, FallbackRole(item).value) == Ok(ids[|events|]))
  {
    var fromActivity := ActivityIdentities(item).value;
    var rest := LaterIdentities(item).value;
    assert Identities(item).value == fromActivity + rest;
    ActivityLayout(item);
    LaterLayout(item);
    if "long_desc" !in item && FallbackRole(item).Some? {
      assert (fromActivity + rest)[|fromActivity|] == rest[0];
    }
  }

  /** The identities of `events` followed by more identities: the events'
      identities lead the joined list. */
  lemma LayoutJoined(events: seq<Json>, a: seq<Dict>, b: seq<Dict>)
    requires |a| == |events| && forall i :: 0 <= i < |events| ==> ShIdentity(events[i]) == Ok(a[i])
    ensures |a + b| == |events| + |b|
    ensures forall i :: 0 <= i < |events| ==> ShIdentity(events[i]) == Ok((a + b)[i])
  {
  }

  lemma ActivityLayout(item: Dict)
    requires ActivityIdentities(item).Ok?
    ensures var events := if "activity" in item then Elements(item, "activity").value else [];
      var ids := ActivityIdentities(item).value;
      |ids| == |events| && forall i :: 0 <= i < |events| ==> ShIdentity(events[i]) == Ok(ids[i])
  {
  }

  lemma LaterLayout(item: Dict)
    requires LaterIdentities(item).Ok?
    ensures var ids := LaterIdentities(item).value;
      && ("long_desc" in item ==>
            var comments := Elements(item, "long_desc").value;
            |ids| == |comments| && forall i :: 0 <= i < |comments| ==> ShIdentity(comments[i]) == Ok(ids[i]))
      && ("long_desc" !in item ==>
            |ids| == (if FallbackRole(item).Some? then 1 else 0) &&
            (FallbackRole(item).Some? ==> RoleIdentity(item, FallbackRole(item).value) == Ok(ids[0])))
  {
  }

  /** One iteration of a `for` loop of `get_identities`, seen from the whole list. */
  lemma IdentitiesStep(users: seq<Json>, i: nat, acc: seq<Dict>)
    requires i < |users|
    ensures var head := ShIdentity(users[i]);
      Then(acc, IdentitiesOf(users[i..]))
      == if head.Err? then Err(head.error) else Then(acc + [head.value], IdentitiesOf(users[i + 1..]))
  {
    assert users[i..][0] == users[i] && users[i..][1..] == users[i + 1..];
    var head := ShIdentity(users[i]);
    var tail := IdentitiesOf(users[i + 1..]);
    if head.Ok? && tail.Ok? {
      assert acc + ([head.value] + tail.value) == (acc + [head.value]) + tail.value;
    }
  }

  /** One of the `for` loops of `get_identities`. */
  method CollectIdentities(users: seq<Json>) returns (r: Result<seq<Dict>>)
    ensures r == IdentitiesOf(users)
  {
    var identities: seq<Dict> := [];
    assert users[0..] == users;
    assert IdentitiesOf(users).Ok? ==> [] + IdentitiesOf(users).value == IdentitiesOf(users).value;
    var i := 0;
    while i < |users|
      invariant 0 <= i <= |users|
      invariant IdentitiesOf(users) == Then(identities, IdentitiesOf(users[i..]))
    {
      IdentitiesStep(users, i, identities);
      var identity := ShIdentity(users[i]);
      if identity.Err? {
        return Err(identity.error);
      }
      identities := identities + [identity.value];
      i := i + 1;
    }
    assert users[i..] == [] && identities + [] == identities;
    r := Ok(identities);
  }

  /** `get_identities`. */
  method GetIdentities(item: Dict) returns (r: Result<seq<Dict>>)
    ensures r == Identities(item)
  {
    var identities: seq<Dict> := [];
    if "activity" in item {
      var events :- Elements(item, "activity");
      identities :- CollectIdentities(events);
    }
    assert ActivityIdentities(item) == Ok(identities);
    ghost var fromActivity := identities;
    if "long_desc" in item {
      var comments :- Elements(item, "long_desc");
      var fromComments :- CollectIdentities(comments);
      identities := identities + fromComments;
    } else if "assigned_to" in item {
      var identity :- RoleIdentity(item, "assigned_to");
      identities := identities + [identity];
    } else if "reporter" in item {
      var identity :- RoleIdentity(item, "reporter");
      identities := identities + [identity];
    } else if "qa_contact" in item {
      var identity :- RoleIdentity(item, "qa_contact");
      identities := identities + [identity];
    }
    assert LaterIdentities(item).Ok? && identities == fromActivity + LaterIdentities(item).value;
    r := Ok(identities);
  }

  // ----- enrich_issue -----

  /** The connector's settings and the routines it calls but that are not
      modelled: `urlparse` of the backend URL (its scheme and netloc),
      `parser.parse` followed by `strftime('%Y-%m-%dT%H:%M:%S')` or by
      `isoformat()`, `get_time_diff_days`, and serialisation. */
  datatype Config = Config(
    sortinghat: bool,
    prjsMap: ProjectsMap,
    sh: SortingHat,
    scheme: string,
    netloc: string,
    strftime: Json -> Json,
    isoformat: Json -> Json,
    timeDiffDays: (Json, Json) -> Json,
    codec: Codec)

  /** The document field `target` holds `data[key][0][field]` when the raw
      item has `key` and that first entry has `field`, and is absent
      otherwise: the guarded copies of `enrich_issue`. */
  ghost predicate FirstEntryCopied(data: Json, key: string, field: string, present: bool, target: string, e: Dict) {
    && (target in e <==>
          present && Get(data, key).Ok? && At(data.fields[key], 0).Ok?
          && Contains(At(data.fields[key], 0).value, field) == Ok(true))
    && (target in e ==> Get(At(data.fields[key], 0).value, field) == Ok(e[target]))
  }

  /** The two dicts agree on whether they hold `k` and on its value. */
  ghost predicate SameAt(a: Dict, b: Dict, k: string) {
    (k in a <==> k in b) && (k in a ==> a[k] == b[k])
  }

  /** `{role: data[role][0]['name']}` when that user has a name, else `{}`. */
  function OptionalName(data: Json, role: string, present: bool): (r: Result<Dict>)
    ensures r.Ok? ==> r.value.Keys <= {role}
    ensures r.Ok? ==> FirstEntryCopied(data, role, "name", present, role, r.value)
  {
    if present then
      var users :- Get(data, role);
      var first :- At(users, 0);
      var hasName :- Contains(first, "name");
      if hasName then (var name :- Get(first, "name"); Ok(map[role := name])) else Ok(map[])
    else Ok(map[])
  }

  /** `{"summary": data['short_desc'][0]['__text__']}` when the first entry
      has a text, else `{}`. */
  function OptionalSummary(data: Json, present: bool): (r: Result<Dict>)
    ensures r.Ok? ==> r.value.Keys <= {"summary"}
    ensures r.Ok? ==> FirstEntryCopied(data, "short_desc", "__text__", present, "summary", r.value)
  {
    if present then
      var descs :- Get(data, "short_desc");
      var first :- At(descs, 0);
      var hasText :- Contains(first, "__text__");
      if hasText then (var text :- Get(first, "__text__"); Ok(map["summary" := text])) else Ok(map[])
    else Ok(map[])
  }

  /** `len(data['long_desc'])` when the raw item has comments, else 0. */
  function CommentCount(data: Json, present: bool): (r: Result<int>)
    ensures !present ==> r == Ok(0)
    ensures present && r.Ok? ==> Get(data, "long_desc").Ok? && Len(data.fields["long_desc"]) == Ok(r.value)
  {
    if present then (var comments :- Get(data, "long_desc"); var n :- Len(comments); Ok(n)) else Ok(0)
  }

  /** The fields every enriched issue has. */
  const IssueFields: set<string> :=
    {"ocean-unique-id", "bug_id", "status", "component", "product", "creation_ts",
     "changeddate_date", "delta_ts", "number_of_comments", "time_to_last_update_days", "url"}

  /** The optional fields taken from the issue itself. */
  const OptionalIssueFields: set<string> := {"assigned_to", "reporter", "summary"}

  /** What a well-formed base document says about its issue: `ocean-unique-id`
      copied from the data or None, the comment count of `long_desc` when the
      raw item has that key and 0 otherwise, and the issue's `show_bug.cgi`
      link built from its bug id. */
  ghost predicate IssueBasics(cfg: Config, issue: Dict, e: Dict) {
    && "data" in issue && issue["data"].Object?
    && IssueFields <= e.Keys
    && var data := issue["data"].fields;
    && e["ocean-unique-id"] == (if "ocean-unique-id" in data then data["ocean-unique-id"] else Null)
    && ("long_desc" !in issue ==> e["number_of_comments"] == Int(0))
    && ("long_desc" in issue ==>
          "long_desc" in data && Len(data["long_desc"]).Ok? &&
          e["number_of_comments"] == Int(Len(data["long_desc"]).value))
    && Text(issue["data"], "bug_id").Ok? && e["bug_id"] == Text(issue["data"], "bug_id").value
    && e["bug_id"].Str?
    && e["url"] == Str(cfg.scheme + "//" + cfg.netloc + "show_bug.cgi?id=" + e["bug_id"].s)
    && Text(issue["data"], "bug_status").Ok? && e["status"] == Text(issue["data"], "bug_status").value
    && Text(issue["data"], "component").Ok? && e["component"] == Text(issue["data"], "component").value
    && Text(issue["data"], "product").Ok? && e["product"] == Text(issue["data"], "product").value
    && Text(issue["data"], "creation_ts").Ok? && Text(issue["data"], "delta_ts").Ok?
    && e["creation_ts"] == cfg.strftime(Text(issue["data"], "creation_ts").value)
    && e["delta_ts"] == cfg.strftime(Text(issue["data"], "delta_ts").value)
    && e["changeddate_date"] == cfg.isoformat(Text(issue["data"], "delta_ts").value)
    && e["time_to_last_update_days"] == cfg.timeDiffDays(e["creation_ts"], e["delta_ts"])
  }

  /** The optional fields of a document: the assigned_to and reporter names
      and the summary, each copied from the first entry of its list when the
      raw item has the key and that entry has the field, else absent. */
  ghost predicate IssueOptional(issue: Dict, e: Dict) {
    && "data" in issue
    && FirstEntryCopied(issue["data"], "assigned_to", "name", "assigned_to" in issue, "assigned_to", e)
    && FirstEntryCopied(issue["data"], "reporter", "name", "reporter" in issue, "reporter", e)
    && FirstEntryCopied(issue["data"], "short_desc", "__text__", "short_desc" in issue, "summary", e)
  }

  /** The fields of the base document that every issue has, from the values
      `enrich_issue` reads. */
  function FixedFields(cfg: Config, oceanId: Json, bugId: Json, bugText: string, status: Json,
                       component: Json, product: Json, creation: Json, delta: Json, comments: int): (e: Dict)
    ensures e.Keys == IssueFields
    ensures e["ocean-unique-id"] == oceanId && e["bug_id"] == bugId && e["number_of_comments"] == Int(comments)
    ensures e["url"] == Str(cfg.scheme + "//" + cfg.netloc + "show_bug.cgi?id=" + bugText)
    ensures e["status"] == status && e["component"] == component && e["product"] == product
    ensures e["creation_ts"] == cfg.strftime(creation) && e["delta_ts"] == cfg.strftime(delta)
    ensures e["changeddate_date"] == cfg.isoformat(delta)
    ensures e["time_to_last_update_days"] == cfg.timeDiffDays(e["creation_ts"], e["delta_ts"])
  {
    var creationTs := cfg.strftime(creation);
    var deltaTs := cfg.strftime(delta);
    // The keys are pairwise distinct, so the order of the updates does not matter.
    map[
      "status" := status, "component" := component, "product" := product,
      "creation_ts" := creationTs, "changeddate_date" := cfg.isoformat(delta), "delta_ts" := deltaTs,
      "time_to_last_update_days" := cfg.timeDiffDays(creationTs, deltaTs),
      "ocean-unique-id" := oceanId, "bug_id" := bugId, "number_of_comments" := Int(comments),
      "url" := Str(cfg.scheme + "//" + cfg.netloc + "show_bug.cgi?id=" + bugText)]
  }

  /** The values of a base document built from `optional` and the values
      read from the issue: the fixed fields hold those values, and each
      optional field is present and valued as in `optional`. */
  ghost predicate Assembled(cfg: Config, optional: Dict, e: Dict, oceanId: Json, bugId: Json, bugText: string,
                            status: Json, component: Json, product: Json, creation: Json, delta: Json, comments: int)
  {
    && IssueFields <= e.Keys
    && e["ocean-unique-id"] == oceanId && e["bug_id"] == bugId && e["number_of_comments"] == Int(comments)
    && e["url"] == Str(cfg.scheme + "//" + cfg.netloc + "show_bug.cgi?id=" + bugText)
    && e["status"] == status && e["component"] == component && e["product"] == product
    && e["creation_ts"] == cfg.strftime(creation) && e["delta_ts"] == cfg.strftime(delta)
    && e["changeddate_date"] == cfg.isoformat(delta)
    && e["time_to_last_update_days"] == cfg.timeDiffDays(e["creation_ts"], e["delta_ts"])
    && SameAt(e, optional, "assigned_to") && SameAt(e, optional, "reporter") && SameAt(e, optional, "summary")
  }

  /** The base document: the optional fields, then the fixed ones. */
  function Assemble(cfg: Config, optional: Dict, oceanId: Json, bugId: Json, bugText: string, status: Json,
                    component: Json, product: Json, creation: Json, delta: Json, comments: int): (e: Dict)
    requires optional.Keys <= OptionalIssueFields
    ensures IssueFields <= e.Keys <= IssueFields + OptionalIssueFields
    ensures Assembled(cfg, optional, e, oceanId, bugId, bugText, status, component, product, creation, delta, comments)
  {
    var fixed := FixedFields(cfg, oceanId, bugId, bugText, status, component, product, creation, delta, comments);
    OptionalApart();
    Overridden(optional, fixed, OptionalIssueFields, IssueFields);
    optional + fixed
  }

  /** The fixed and the optional fields of an issue never collide. */
  lemma OptionalApart()
    ensures IssueFields !! OptionalIssueFields
  {
  }

  /** `a.update(b)` on dicts with disjoint key ranges: `b`'s values win and
      `a`'s keys keep their values. */
  lemma Overridden(a: Dict, b: Dict, ka: set<string>, kb: set<string>)
    requires a.Keys <= ka && b.Keys == kb && ka !! kb
    ensures kb <= (a + b).Keys <= ka + kb
    ensures forall k :: k in kb ==> (a + b)[k] == b[k]
    ensures forall k :: k in ka ==> (k in a + b <==> k in a) && (k in a ==> (a + b)[k] == a[k])
  {
  }

  /** The fields `enrich_issue` sets before its SortingHat and project updates. */
  function BaseIssue(cfg: Config, issue: Dict): (r: Result<Dict>)
    ensures r.Ok? ==> IssueBasics(cfg, issue, r.value)
    ensures r.Ok? ==> IssueOptional(issue, r.value)
    ensures r.Ok? ==> r.value.Keys <= IssueFields + OptionalIssueFields
  {
    var data :- Field(issue, "data");
    var hasId :- Contains(data, "ocean-unique-id");
    var oceanId :- (if hasId then Get(data, "ocean-unique-id") else Ok(Null));
    var assignedName :- OptionalName(data, "assigned_to", "assigned_to" in issue);
    var reporterName :- OptionalName(data, "reporter", "reporter" in issue);
    var bugId :- Text(data, "bug_id");
    var status :- Text(data, "bug_status");
    var summary :- OptionalSummary(data, "short_desc" in issue);
    BaseIssueRest(cfg, issue, assignedName, reporterName, summary, oceanId, bugId, status)
  }

  /** The rest of the base document, from `component` on, once the values
      before it have been read. */
  function BaseIssueRest(cfg: Config, issue: Dict, assignedName: Dict, reporterName: Dict, summary: Dict,
                         oceanId: Json, bugId: Json, status: Json): (r: Result<Dict>)
    requires "data" in issue && issue["data"].Object?
    requires oceanId == if "ocean-unique-id" in issue["data"].fields then issue["data"].fields["ocean-unique-id"] else Null
    requires OptionalName(issue["data"], "assigned_to", "assigned_to" in issue) == Ok(assignedName)
    requires OptionalName(issue["data"], "reporter", "reporter" in issue) == Ok(reporterName)
    requires OptionalSummary(issue["data"], "short_desc" in issue) == Ok(summary)
    requires Text(issue["data"], "bug_id") == Ok(bugId) && Text(issue["data"], "bug_status") == Ok(status)
    ensures r.Ok? ==> IssueBasics(cfg, issue, r.value)
    ensures r.Ok? ==> IssueOptional(issue, r.value)
    ensures r.Ok? ==> r.value.Keys <= IssueFields + OptionalIssueFields
  {
    var data := issue["data"];
    var component :- Text(data, "component");
    var product :- Text(data, "product");
    var creation :- Text(data, "creation_ts");
    var delta :- Text(data, "delta_ts");
    var comments :- CommentCount(data, "long_desc" in issue);
    var bugText :- AsStr(bugId);
    var e := Assemble(cfg, assignedName + reporterName + summary, oceanId, bugId, bugText, status,
                      component, product, creation, delta, comments);
    AssembledIssue(cfg, issue, assignedName, reporterName, summary, e, oceanId, bugId, bugText, status,
                   component, product, creation, delta, comments);
    Ok(e)
  }

  /** The document assembled from the values `enrich_issue` reads holds
      the base facts of its issue. */
  lemma AssembledIssue(cfg: Config, issue: Dict, assignedName: Dict, reporterName: Dict, summary: Dict, e: Dict,
                       oceanId: Json, bugId: Json, bugText: string, status: Json, component: Json,
                       product: Json, creation: Json, delta: Json, comments: int)
    requires "data" in issue && issue["data"].Object?
    requires oceanId == if "ocean-unique-id" in issue["data"].fields then issue["data"].fields["ocean-unique-id"] else Null
    requires OptionalName(issue["data"], "assigned_to", "assigned_to" in issue) == Ok(assignedName)
    requires OptionalName(issue["data"], "reporter", "reporter" in issue) == Ok(reporterName)
    requires OptionalSummary(issue["data"], "short_desc" in issue) == Ok(summary)
    requires Text(issue["data"], "bug_id") == Ok(bugId) && bugId == Str(bugText)
    requires Text(issue["data"], "bug_status") == Ok(status)
    requires Text(issue["data"], "component") == Ok(component) && Text(issue["data"], "product") == Ok(product)
    requires Text(issue["data"], "creation_ts") == Ok(creation) && Text(issue["data"], "delta_ts") == Ok(delta)
    requires CommentCount(issue["data"], "long_desc" in issue) == Ok(comments)
    requires Assembled(cfg, assignedName + reporterName + summary, e, oceanId, bugId, bugText, status,
                       component, product, creation, delta, comments)
    ensures IssueBasics(cfg, issue, e) && IssueOptional(issue, e)
  {
    var optional := assignedName + reporterName + summary;
    assert SameAt(optional, assignedName, "assigned_to");
    assert SameAt(optional, reporterName, "reporter");
    assert SameAt(optional, summary, "summary");
  }

  const SortingHatKeys: set<string> := AssignedToKeys.Keys() + ReporterKeys.Keys()

  /** The SortingHat fields an enriched issue holds: a role's three fields
      when SortingHat is on and the raw item has that role. */
  function ShFieldKeys(sortinghat: bool, issue: Dict): set<string> {
    (if sortinghat && "assigned_to" in issue then AssignedToKeys.Keys() else {})
    + (if sortinghat && "reporter" in issue then ReporterKeys.Keys() else {})
  }

  /** The base fields, the SortingHat fields and `project` never collide. */
  lemma KeysApart()
    ensures (IssueFields + OptionalIssueFields) !! SortingHatKeys
    ensures "project" !in SortingHatKeys && "project" !in IssueFields + OptionalIssueFields
  {
  }

  lemma BasicsKept(cfg: Config, issue: Dict, e: Dict, extra: Dict)
    requires IssueBasics(cfg, issue, e) && extra.Keys !! IssueFields
    ensures IssueBasics(cfg, issue, e + extra)
  {
  }

  lemma OptionalKept(issue: Dict, e: Dict, extra: Dict)
    requires IssueOptional(issue, e) && extra.Keys !! OptionalIssueFields
    ensures IssueOptional(issue, e + extra)
  {
  }

  /** Updating a document with fields of other names keeps a role's fields. */
  lemma ResolvedKept(sh: SortingHat, item: Dict, e: Dict, after: Dict, role: string, keys: RoleKeys)
    requires RoleResolved(sh, item, e, role, keys) && after.Keys !! keys.Keys()
    ensures RoleResolved(sh, item, e + after, role, keys)
  {
  }

  /** Updating a document with a role's fields makes it hold them. */
  lemma ResolvedAdded(sh: SortingHat, item: Dict, before: Dict, e: Dict, role: string, keys: RoleKeys)
    requires RoleResolved(sh, item, e, role, keys)
    ensures RoleResolved(sh, item, before + e, role, keys)
  {
  }

  /** `get_item_sh(issue)` when SortingHat is on, else nothing. */
  function SortingHatUpdate(cfg: Config, issue: Dict): (r: Result<Dict>)
    ensures r.Ok? ==> r.value.Keys == ShFieldKeys(cfg.sortinghat, issue)
    ensures r.Ok? && cfg.sortinghat && "assigned_to" in issue ==>
      RoleResolved(cfg.sh, issue, r.value, "assigned_to", AssignedToKeys)
    ensures r.Ok? && cfg.sortinghat && "reporter" in issue ==>
      RoleResolved(cfg.sh, issue, r.value, "reporter", ReporterKeys)
  {
    if cfg.sortinghat then ItemSh(cfg.sh, issue) else Ok(map[])
  }

  /** `get_item_project(issue)` when a projects map is set, else nothing. */
  function ProjectUpdate(cfg: Config, issue: Dict): (r: Result<Dict>)
    ensures r.Ok? ==> r.value.Keys == if |cfg.prjsMap| > 0 then {"project"} else {}
    ensures r.Ok? && |cfg.prjsMap| > 0 ==>
      ItemProject(cfg.prjsMap, issue).Ok? && r.value["project"] == ItemProject(cfg.prjsMap, issue).value["project"]
  {
    if |cfg.prjsMap| > 0 then ItemProject(cfg.prjsMap, issue) else Ok(map[])
  }

  /** The updates `enrich_issue` applies to its base document: the
      SortingHat fields when SortingHat is on, then `project` when a projects
      map is set. A role's SortingHat fields are there exactly when
      SortingHat is on and the raw item has the role. */
  function IssueUpdates(cfg: Config, issue: Dict): (r: Result<Dict>)
    ensures r.Ok? ==> r.value.Keys == ShFieldKeys(cfg.sortinghat, issue) + (if |cfg.prjsMap| > 0 then {"project"} else {})
    ensures r.Ok? ==> ("assigned_to_uuid" in r.value <==> cfg.sortinghat && "assigned_to" in issue)
    ensures r.Ok? ==> ("reporter_uuid" in r.value <==> cfg.sortinghat && "reporter" in issue)
    ensures r.Ok? && cfg.sortinghat && "assigned_to" in issue ==>
      RoleResolved(cfg.sh, issue, r.value, "assigned_to", AssignedToKeys)
    ensures r.Ok? && cfg.sortinghat && "reporter" in issue ==>
      RoleResolved(cfg.sh, issue, r.value, "reporter", ReporterKeys)
    ensures r.Ok? ==> ("project" in r.value <==> |cfg.prjsMap| > 0)
    ensures r.Ok? && |cfg.prjsMap| > 0 ==>
      ItemProject(cfg.prjsMap, issue).Ok? && r.value["project"] == ItemProject(cfg.prjsMap, issue).value["project"]
  {
    var shFields :- SortingHatUpdate(cfg, issue);
    var projectFields :- ProjectUpdate(cfg, issue);
    RolesApart();
    UpdatesJoined(cfg.sh, issue, shFields, projectFields, AssignedToKeys, ReporterKeys,
                  cfg.sortinghat && "assigned_to" in issue, cfg.sortinghat && "reporter" in issue,
                  |cfg.prjsMap| > 0);
    Ok(shFields + projectFields)
  }

  /** The two roles' SortingHat fields and `project` never collide. */
  lemma RolesApart()
    ensures AssignedToKeys.Keys() !! ReporterKeys.Keys()
    ensures "project" !in AssignedToKeys.Keys() + ReporterKeys.Keys()
  {
  }

  /** The fields of two roles and a `project` field, joined, keep what each
      of them states. */
  lemma UpdatesJoined(sh: SortingHat, issue: Dict, shFields: Dict, projectFields: Dict,
                      a: RoleKeys, b: RoleKeys, onA: bool, onB: bool, onProject: bool)
    requires a.Keys() !! b.Keys() && "project" !in a.Keys() + b.Keys()
    requires shFields.Keys == (if onA then a.Keys() else {}) + (if onB then b.Keys() else {})
    requires onA ==> RoleResolved(sh, issue, shFields, "assigned_to", a)
    requires onB ==> RoleResolved(sh, issue, shFields, "reporter", b)
    requires projectFields.Keys == if onProject then {"project"} else {}
    ensures var u := shFields + projectFields;
      && u.Keys <= a.Keys() + b.Keys() + {"project"}
      && (a.uuid in u <==> onA) && (b.uuid in u <==> onB) && ("project" in u <==> onProject)
      && (onA ==> RoleResolved(sh, issue, u, "assigned_to", a))
      && (onB ==> RoleResolved(sh, issue, u, "reporter", b))
      && (onProject ==> u["project"] == projectFields["project"])
  {
    if onA {
      ResolvedKept(sh, issue, shFields, projectFields, "assigned_to", a);
    }
    if onB {
      ResolvedKept(sh, issue, shFields, projectFields, "reporter", b);
    }
  }

  /** `enrich_issue`: the base document updated with `IssueUpdates`. */
  function EnrichIssue(cfg: Config, issue: Dict): (r: Result<Dict>)
    ensures r.Ok? ==> IssueBasics(cfg, issue, r.value) && IssueOptional(issue, r.value)
    ensures r.Ok? ==> r.value.Keys <= IssueFields + OptionalIssueFields + SortingHatKeys + {"project"}
    ensures r.Ok? ==> r.value.Keys * SortingHatKeys == ShFieldKeys(cfg.sortinghat, issue)
    ensures r.Ok? && !cfg.sortinghat ==> r.value.Keys !! SortingHatKeys
    ensures r.Ok? ==> ("assigned_to_uuid" in r.value <==> cfg.sortinghat && "assigned_to" in issue)
    ensures r.Ok? ==> ("reporter_uuid" in r.value <==> cfg.sortinghat && "reporter" in issue)
    ensures r.Ok? && cfg.sortinghat && "assigned_to" in issue ==>
      RoleResolved(cfg.sh, issue, r.value, "assigned_to", AssignedToKeys)
    ensures r.Ok? && cfg.sortinghat && "reporter" in issue ==>
      RoleResolved(cfg.sh, issue, r.value, "reporter", ReporterKeys)
    ensures r.Ok? ==> ("project" in r.value <==> |cfg.prjsMap| > 0)
    ensures r.Ok? && |cfg.prjsMap| > 0 ==>
      ItemProject(cfg.prjsMap, issue).Ok? && r.value["project"] == ItemProject(cfg.prjsMap, issue).value["project"]
  {
    var base :- BaseIssue(cfg, issue);
    var updates :- IssueUpdates(cfg, issue);
    UpdatedIssue(cfg, issue, base, updates);
    Ok(base + updates)
  }

  /** A base document updated with `IssueUpdates` keeps its base facts and
      gains exactly the updates' SortingHat fields and project. */
  lemma UpdatedIssue(cfg: Config, issue: Dict, base: Dict, updates: Dict)
    requires IssueBasics(cfg, issue, base) && IssueOptional(issue, base)
    requires base.Keys <= IssueFields + OptionalIssueFields
    requires updates.Keys == ShFieldKeys(cfg.sortinghat, issue) + (if |cfg.prjsMap| > 0 then {"project"} else {})
    requires cfg.sortinghat && "assigned_to" in issue ==>
      RoleResolved(cfg.sh, issue, updates, "assigned_to", AssignedToKeys)
    requires cfg.sortinghat && "reporter" in issue ==>
      RoleResolved(cfg.sh, issue, updates, "reporter", ReporterKeys)
    requires |cfg.prjsMap| > 0 ==>
      ItemProject(cfg.prjsMap, issue).Ok? && updates["project"] == ItemProject(cfg.prjsMap, issue).value["project"]
    ensures var e := base + updates;
      && IssueBasics(cfg, issue, e) && IssueOptional(issue, e)
      && e.Keys <= IssueFields + OptionalIssueFields + SortingHatKeys + {"project"}
      && e.Keys * SortingHatKeys == ShFieldKeys(cfg.sortinghat, issue)
      && (!cfg.sortinghat ==> e.Keys !! SortingHatKeys)
      && ("assigned_to_uuid" in e <==> cfg.sortinghat && "assigned_to" in issue)
      && ("reporter_uuid" in e <==> cfg.sortinghat && "reporter" in issue)
      && (cfg.sortinghat && "assigned_to" in issue ==> RoleResolved(cfg.sh, issue, e, "assigned_to", AssignedToKeys))
      && (cfg.sortinghat && "reporter" in issue ==> RoleResolved(cfg.sh, issue, e, "reporter", ReporterKeys))
      && ("project" in e <==> |cfg.prjsMap| > 0)
      && (|cfg.prjsMap| > 0 ==> e["project"] == ItemProject(cfg.prjsMap, issue).value["project"])
  {
    KeysApart();
    BasicsKept(cfg, issue, base, updates);
    OptionalKept(issue, base, updates);
    UpdatedKeys(cfg.sortinghat, issue, base, updates, |cfg.prjsMap| > 0);
    RolesAdded(cfg.sh, issue, base, updates, cfg.sortinghat && "assigned_to" in issue,
               cfg.sortinghat && "reporter" in issue);
  }

  /** The key set of a base document updated with the SortingHat fields and
      possibly `project`: SortingHat fields are exactly those of the updates. */
  lemma UpdatedKeys(sortinghat: bool, issue: Dict, base: Dict, updates: Dict, project: bool)
    requires base.Keys <= IssueFields + OptionalIssueFields
    requires updates.Keys == ShFieldKeys(sortinghat, issue) + (if project then {"project"} else {})
    ensures var e := base + updates;
      && e.Keys <= IssueFields + OptionalIssueFields + SortingHatKeys + {"project"}
      && e.Keys * SortingHatKeys == ShFieldKeys(sortinghat, issue)
      && (!sortinghat ==> e.Keys !! SortingHatKeys)
      && ("assigned_to_uuid" in e <==> sortinghat && "assigned_to" in issue)
      && ("reporter_uuid" in e <==> sortinghat && "reporter" in issue)
      && ("project" in e <==> project)
  {
    KeysApart();
  }

  /** Updating a document with the resolved roles' fields keeps them resolved. */
  lemma RolesAdded(sh: SortingHat, issue: Dict, base: Dict, updates: Dict, onA: bool, onB: bool)
    requires onA ==> RoleResolved(sh, issue, updates, "assigned_to", AssignedToKeys)
    requires onB ==> RoleResolved(sh, issue, updates, "reporter", ReporterKeys)
    ensures onA ==> RoleResolved(sh, issue, base + updates, "assigned_to", AssignedToKeys)
    ensures onB ==> RoleResolved(sh, issue, base + updates, "reporter", ReporterKeys)
  {
    if onA {
      ResolvedAdded(sh, issue, base, updates, "assigned_to", AssignedToKeys);
    }
    if onB {
      ResolvedAdded(sh, issue, base, updates, "reporter", ReporterKeys);
    }
  }

  // ----- issues_to_es -----

  /** The two lines `issues_to_es` writes for one issue: the index
      directive whose `_id` is `%s` of `issue["data"]["bug_id"]`, then the
      serialised enriched issue. */
  function IssueParts(cfg: Config, issue: Dict): (r: Result<(string, string)>)
    ensures r.Ok? <==> EnrichIssue(cfg, issue).Ok? && Get(issue["data"], "bug_id").Ok?
    ensures r.Ok? ==> r.value == (DirectiveLine(cfg.codec.str(issue["data"].fields["bug_id"])),
                                  cfg.codec.dumps(EnrichIssue(cfg, issue).value))
  {
    var eitem :- EnrichIssue(cfg, issue);
    var dataJson := cfg.codec.dumps(eitem);
    var data :- Field(issue, "data");
    var bugId :- Get(data, "bug_id");
    Ok((DirectiveLine(cfg.codec.str(bugId)), dataJson))
  }

  /** The text `issues_to_es` appends to its buffer for one issue: the
      directive line and the document line, each newline-terminated. */
  function IssueText(cfg: Config, issue: Dict): (r: Result<string>)
    ensures r.Ok? <==> IssueParts(cfg, issue).Ok?
    ensures r.Ok? ==> r.value == Terminated([IssueParts(cfg, issue).value.0, IssueParts(cfg, issue).value.1])
  {
    var parts :- IssueParts(cfg, issue);
    Ok(Terminated([parts.0, parts.1]))
  }

  function IssueTexts(cfg: Config, items: seq<Dict>): (ts: seq<Result<string>>)
    ensures |ts| == |items| && forall i :: 0 <= i < |items| ==> ts[i] == IssueText(cfg, items[i])
  {
    seq(|items|, i requires 0 <= i < |items| => IssueText(cfg, items[i]))
  }

  function IssuesUrl(elastic: Elastic): string
    reads elastic
  {
    elastic.indexUrl + "/" + "issues" + "/_bulk"
  }

  /** `issues_to_es`: the store receives exactly the bodies of `Run` under
      `FailOnEncode` (no retry), at the issues bulk URL, and the loop ends as
      `Run` does. */
  method IssuesToEs(cfg: Config, elastic: Elastic, items: seq<Dict>) returns (outcome: Outcome)
    modifies elastic
    ensures var t := Run(items, IssueTexts(cfg, items), FailOnEncode, elastic.maxItemsBulk, [], None);
      outcome == t.outcome && elastic.requests == old(elastic.requests) + Requests(IssuesUrl(elastic), t.sent)
  {
    var url := elastic.indexUrl + "/" + "issues" + "/_bulk";
    var render := issue => IssueText(cfg, issue);
    outcome := BulkLoop(elastic, url, FailOnEncode, items, render);
    assert Rendered(render, items) == IssueTexts(cfg, items);
  }

  /** The bulk texts of issues that all enrich. */
  function IssueLines(cfg: Config, items: seq<Dict>): (lines: seq<string>)
    requires forall i :: 0 <= i < |items| ==> IssueText(cfg, items[i]).Ok?
    ensures |lines| == |items| && forall i :: 0 <= i < |items| ==> IssueText(cfg, items[i]) == Ok(lines[i])
  {
    seq(|items|, i requires 0 <= i < |items| => IssueText(cfg, items[i]).value)
  }

  /** When every issue enriches and every text is ASCII, `issues_to_es`
      sends exactly the batches of `Flushes` over the issue texts, in
      order, and completes: with the bounds and the count of
      `FlushesBounded`, `FlushesPreserveOrder` and `FlushesCount`. */
  lemma IssuesDelivered(cfg: Config, items: seq<Dict>, k: int)
    requires forall i :: 0 <= i < |items| ==> IssueText(cfg, items[i]).Ok? && IsAscii(IssueText(cfg, items[i]).value)
    ensures Run(items, IssueTexts(cfg, items), FailOnEncode, k, [], None)
         == Trace(Bodies(Flushes(IssueLines(cfg, items), k, []), false), Completed)
  {
    var lines := IssueLines(cfg, items);
    assert Produced(IssueTexts(cfg, items), lines);
    assert AllAscii(lines);
    RunSendsFlushes(items, IssueTexts(cfg, items), lines, FailOnEncode, k, [], None);
  }

  /** A bulk body made of the texts of consecutive issues (every batch
      `issues_to_es` sends is one) splits at its newlines into, for each
      issue in order, its index directive line and then its document line,
      provided no `%s` of a bug id and no serialised document holds a
      newline. */
  lemma IssueBatchLines(cfg: Config, batch: seq<Dict>)
    requires forall i :: 0 <= i < |batch| ==>
      && IssueParts(cfg, batch[i]).Ok?
      && '\n' !in cfg.codec.str(batch[i]["data"].fields["bug_id"]) && '\n' !in IssueParts(cfg, batch[i]).value.1
    ensures var ls := Split(Concat(IssueLines(cfg, batch)), '\n');
      && |ls| == 2 * |batch| + 1 && ls[2 * |batch|] == ""
      && forall i :: 0 <= i < |batch| ==>
           ls[2 * i] == DirectiveLine(cfg.codec.str(batch[i]["data"].fields["bug_id"]))
           && ls[2 * i + 1] == cfg.codec.dumps(EnrichIssue(cfg, batch[i]).value)
  {
    var heads := seq(|batch|, i requires 0 <= i < |batch| => IssueParts(cfg, batch[i]).value.0);
    var bodies := seq(|batch|, i requires 0 <= i < |batch| => IssueParts(cfg, batch[i]).value.1);
    forall i | 0 <= i < |batch| ensures '\n' !in heads[i] {
      DirectiveNoNewline(cfg.codec.str(batch[i]["data"].fields["bug_id"]));
    }
    SplitPairs(IssueLines(cfg, batch), heads, bodies);
  }
}
