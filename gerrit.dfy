/** The Gerrit connector (`GerritEnrich`): SortingHat identities of review
    owners, uploaders, authors, approvers and reviewers; the rewriting of a
    review's dates into local time; the enriched review document; and the
    bulk upload of enriched reviews, which retries a body that is not ASCII
    with its other characters dropped. */
module Gerrit {
  import opened PyJson
  import opened Enrich
  import opened Bulk

  // ----- get_sh_identity -----

  /** The value `get_sh_identity` gives `field`: the user's own, or None. */
  function Copied(user: Dict, field: string): Json {
    if field in user then user[field] else Null
  }

  /** The identity of a dict user: its name, email and username, each its
      own or None. */
  function Identity(user: Dict): (id: Dict)
    ensures id.Keys == IdentityFields
  {
    map["name" := Copied(user, "name"), "email" := Copied(user, "email"), "username" := Copied(user, "username")]
  }

  /** `if field in user: identity[field] = user[field]`. */
  function CopyIfPresent(identity: Dict, user: Json, field: string): (r: Result<Dict>)
    ensures r.Ok? ==> r.value.Keys == identity.Keys + {field} || r.value == identity
  {
    var present :- Contains(user, field);
    if present then (var value :- Get(user, field); Ok(identity[field := value])) else Ok(identity)
  }

  /** `get_sh_identity`: exactly name, email and username (a dict user gets
      `Identity`, see `ShIdentityOfDict`). Only a dict, a string or a list
      can be asked for its keys, and a string or list that contains one of
      the names cannot be indexed by it. */
  function ShIdentity(user: Json): (r: Result<Dict>)
    ensures r.Ok? ==> r.value.Keys == IdentityFields
    ensures !(user.Object? || user.Str? || user.List?) ==> r.Err?
  {
    var withName :- CopyIfPresent(EmptyIdentity(), user, "name");
    var withEmail :- CopyIfPresent(withName, user, "email");
    CopyIfPresent(withEmail, user, "username")
  }

  /** `get_sh_identity`, statement by statement. */
  method GetShIdentity(user: Json) returns (r: Result<Dict>)
    ensures r == ShIdentity(user)
  {
    var identity := NoneIdentity();
    identity :- CopyIfPresent(identity, user, "name");
    identity :- CopyIfPresent(identity, user, "email");
    identity :- CopyIfPresent(identity, user, "username");
    r := Ok(identity);
  }

  /** A dict user's identity copies its name, email and username and has
      None for each it lacks; nothing else of the user matters. */
  lemma ShIdentityOfDict(user: Dict)
    ensures ShIdentity(Object(user)) == Ok(Identity(user))
  {
    var afterName := if "name" in user then EmptyIdentity()["name" := user["name"]] else EmptyIdentity();
    var afterEmail := if "email" in user then afterName["email" := user["email"]] else afterName;
    var afterUsername := if "username" in user then afterEmail["username" := user["username"]] else afterEmail;
    assert CopyIfPresent(EmptyIdentity(), Object(user), "name") == Ok(afterName);
    assert CopyIfPresent(afterName, Object(user), "email") == Ok(afterEmail);
    assert CopyIfPresent(afterEmail, Object(user), "username") == Ok(afterUsername);
    assert afterUsername["name"] == Copied(user, "name") && afterUsername["email"] == Copied(user, "email");
    assert afterUsername["username"] == Copied(user, "username");
    assert afterUsername == Identity(user);
  }

  /** An identity is its own identity: `get_sh_identity` of its result gives it back. */
  lemma ShIdentityIdempotent(user: Json)
    requires ShIdentity(user).Ok?
    ensures ShIdentity(Object(ShIdentity(user).value)) == ShIdentity(user)
  {
    var id := ShIdentity(user).value;
    ShIdentityOfDict(id);
    assert Copied(id, "name") == id["name"] && Copied(id, "email") == id["email"];
    assert Copied(id, "username") == id["username"];
    assert Identity(id) == id;
  }

  // ----- get_item_sh -----

  /** `get_item_sh`'s domain: for a truthy email, the second field of
      `split("@")`, that is the text after the first '@' up to a second one,
      and None when there is no '@' (the caught `IndexError`); None for a
      falsy email. A truthy email that is not a string has no `split`. */
  function EmailDomain(email: Json): (r: Result<Json>)
    ensures !Truthy(email) ==> r == Ok(Null)
    ensures Truthy(email) ==> (r.Ok? <==> email.Str?)
    ensures Truthy(email) && email.Str? ==>
      r.value == if '@' in email.s then Str(TakeUntil(DropThrough(email.s, '@'), '@')) else Null
  {
    if !Truthy(email) then Ok(Null)
    else
      var parts :- SplitJson(email, '@');
      if |parts| < 2 then Ok(Null)
      else SplitSecond(email.s, '@'); Ok(Str(parts[1]))
  }

  /** The fields `get_item_sh` sets. */
  const ShFields: set<string> :=
    {"uuid", "name", "org_name", "bot", "domain", "author_uuid", "author_name", "author_org_name", "author_domain"}

  /** The identity `get_item_sh` resolves: that of the review's owner. */
  function OwnerIdentity(item: Dict): (r: Result<Dict>)
    ensures r.Ok? ==> r.value.Keys == IdentityFields
  {
    var data :- Field(item, "data");
    var owner :- Get(data, "owner");
    ShIdentity(owner)
  }

  /** A document whose SortingHat fields are those of the owner's identity:
      its uuid, its name, the organisation of the uuid's first enrollment
      (None without one), `bot` 0, the email's domain, and each `author_*`
      a copy of the field without the prefix. */
  ghost predicate OwnerResolved(sh: SortingHat, item: Dict, e: Dict) {
    var identity := OwnerIdentity(item);
    && identity.Ok?
    && ShFields <= e.Keys
    && e["uuid"] == sh.uuid(identity.value, sh.connector)
    && e["name"] == identity.value["name"]
    && e["org_name"] == FirstOrgName(sh.enrollments(e["uuid"]))
    && e["bot"] == Int(0)
    && EmailDomain(identity.value["email"]) == Ok(e["domain"])
    && e["author_uuid"] == e["uuid"] && e["author_name"] == e["name"]
    && e["author_org_name"] == e["org_name"] && e["author_domain"] == e["domain"]
  }

  /** The fields `get_item_sh` sets from the values it looked up, with
      `bot` 0 and the `author_*` copies. */
  function ShDocument(uuid: Json, name: Json, orgName: Json, domain: Json): (e: Dict)
    ensures e.Keys == ShFields
    ensures e["uuid"] == uuid && e["name"] == name && e["org_name"] == orgName && e["domain"] == domain
    ensures e["bot"] == Int(0)
    ensures e["author_uuid"] == uuid && e["author_name"] == name
    ensures e["author_org_name"] == orgName && e["author_domain"] == domain
  {
    map["uuid" := uuid, "name" := name, "org_name" := orgName, "bot" := Int(0), "domain" := domain,
        "author_uuid" := uuid, "author_name" := name, "author_org_name" := orgName, "author_domain" := domain]
  }

  /** `get_item_sh`: fails when the owner's identity cannot be built, when
      SortingHat knows no unique identity for its uuid (`[0]` of an empty
      list), or when its email has no `split`. The profile of the unique
      identity is read but `bot` is always set to 0 in the end. */
  function ItemSh(sh: SortingHat, item: Dict): (r: Result<Dict>)
    ensures r.Ok? <==> (OwnerIdentity(item).Ok?
      && |sh.uniqueIdentities(sh.uuid(OwnerIdentity(item).value, sh.connector))| > 0
      && EmailDomain(OwnerIdentity(item).value["email"]).Ok?)
    ensures r.Ok? ==> r.value.Keys == ShFields && OwnerResolved(sh, item, r.value)
  {
    var identity :- OwnerIdentity(item);
    var uuid := sh.uuid(identity, sh.connector);
    var uniques := sh.uniqueIdentities(uuid);
    if |uniques| == 0 then Err(IndexError)
    else
      var domain :- EmailDomain(identity["email"]);
      Ok(ShDocument(uuid, identity["name"], FirstOrgName(sh.enrollments(uuid)), domain))
  }

  // ----- get_item_project -----

  /** The repository key of a review: `origin + "_" + data["project"]`;
      both operands must be strings. */
  function RepositoryKey(item: Dict): (r: Result<string>)
    ensures r.Ok? <==> ("origin" in item && item["origin"].Str? && Field(item, "data").Ok?
      && Get(item["data"], "project").Ok? && item["data"].fields["project"].Str?)
    ensures r.Ok? ==> r.value == item["origin"].s + "_" + item["data"].fields["project"].s
    ensures "origin" !in item ==> r == Err(KeyError)
    ensures "origin" in item && !item["origin"].Str? ==> r == Err(TypeError)
    ensures "origin" in item && item["origin"].Str? && "data" !in item ==> r == Err(KeyError)
  {
    var url :- Field(item, "origin");
    // `url + "_"` is evaluated before `item['data']['project']` is read.
    var urlText :- AsStr(url);
    var data :- Field(item, "data");
    var project :- Get(data, "project");
    var projectText :- AsStr(project);
    Ok(urlText + "_" + projectText)
  }

  /** `get_item_project`: the project of the repository key under data
      source "scr", in a one-key dict; None when the map has no such entry. */
  function ItemProject(pm: ProjectsMap, item: Dict): (r: Result<Dict>)
    ensures r.Ok? <==> RepositoryKey(item).Ok?
    ensures r.Err? ==> r.error == RepositoryKey(item).error
    ensures r.Ok? ==> var repo := RepositoryKey(item).value;
      r.value == map["project" := if "scr" in pm && repo in pm["scr"] then pm["scr"][repo] else Null]
  {
    var repo :- RepositoryKey(item);
    Ok(map["project" := LookupProject(pm, "scr", repo)])
  }

  // ----- get_identities -----

  /** `get_sh_identity(x[key])`. */
  function UserIdentity(x: Json, key: string): (r: Result<Dict>)
    ensures r.Ok? ==> x.Object? && key in x.fields && ShIdentity(x.fields[key]) == r
  {
    var user :- Get(x, key);
    ShIdentity(user)
  }

  /** `[get_sh_identity(x[key]) for x in xs]`, stopping at the first exception:
      the approvers (`by`) of a patch set, or the reviewers of the comments. */
  function RoleIdentities(xs: seq<Json>, key: string): (r: Result<seq<Dict>>)
    ensures r.Ok? ==> |r.value| == |xs| && forall i :: 0 <= i < |xs| ==> UserIdentity(xs[i], key) == Ok(r.value[i])
    decreases |xs|
  {
    if xs == [] then Ok([])
    else
      var head :- UserIdentity(xs[0], key);
      var tail :- RoleIdentities(xs[1..], key);
      Ok([head] + tail)
  }

  /** The elements of `v[key]` that a `for` loop visits. */
  function Entries(v: Json, key: string): Result<seq<Json>> {
    var values :- Get(v, key);
    Iter(values)
  }

  /** The entries of `v[key]` when `key in v`, else none. */
  function OptionalEntries(v: Json, key: string): Result<seq<Json>> {
    var present :- Contains(v, key);
    if present then Entries(v, key) else Ok([])
  }

  /** The author's identity, when the patch set has an author. */
  function AuthorIdentity(patch: Json): (r: Result<seq<Dict>>)
    ensures r.Ok? ==> |r.value| == if patch.Object? && "author" in patch.fields then 1 else 0
    ensures r.Ok? && |r.value| == 1 ==> UserIdentity(patch, "author") == Ok(r.value[0])
  {
    var hasAuthor :- Contains(patch, "author");
    if hasAuthor then (var author :- UserIdentity(patch, "author"); Ok([author])) else Ok([])
  }

  /** The number of identities a patch set accounts for: its uploader, its
      author when it has one, and one per approval. */
  function Mentions(patch: Json): nat {
    1 + (if patch.Object? && "author" in patch.fields then 1 else 0)
      + (if OptionalEntries(patch, "approvals").Ok? then |OptionalEntries(patch, "approvals").value| else 0)
  }

  /** The identities of one patch set: its uploader, then its author when it
      has one, then its approvers in order. */
  function PatchIdentities(patch: Json): Result<seq<Dict>> {
    var uploader :- UserIdentity(patch, "uploader");
    var author :- AuthorIdentity(patch);
    var approvals :- OptionalEntries(patch, "approvals");
    var approvers :- RoleIdentities(approvals, "by");
    Ok([uploader] + author + approvers)
  }

  /** A patch set accounts for `Mentions` identities. */
  lemma PatchCount(patch: Json, ids: seq<Dict>)
    requires PatchIdentities(patch) == Ok(ids)
    ensures |ids| == Mentions(patch)
  {
    var author := AuthorIdentity(patch);
    var approvals := OptionalEntries(patch, "approvals");
    assert author.Ok? && approvals.Ok?;
    var approvers := RoleIdentities(approvals.value, "by");
    assert approvers.Ok?;
  }

  /** Within a patch set's identities: the uploader's first, the author's
      right after it when there is an author. */
  lemma PatchHead(patch: Json, ids: seq<Dict>)
    requires PatchIdentities(patch) == Ok(ids)
    ensures UserIdentity(patch, "uploader") == Ok(ids[0])
    ensures patch.Object? && "author" in patch.fields ==> UserIdentity(patch, "author") == Ok(ids[1])
  {
    var uploader := UserIdentity(patch, "uploader");
    var author := AuthorIdentity(patch);
    var approvals := OptionalEntries(patch, "approvals");
    assert uploader.Ok? && author.Ok? && approvals.Ok?;
    var approvers := RoleIdentities(approvals.value, "by");
    assert approvers.Ok?;
    assert ids == [uploader.value] + author.value + approvers.value;
    Joined(uploader.value, author.value, approvers.value);
  }

  /** Within a patch set's identities: after the uploader's and the
      author's, the approvers' identities, one per approval, in order. */
  lemma PatchApprovers(patch: Json, ids: seq<Dict>)
    requires PatchIdentities(patch) == Ok(ids)
    ensures var approvals := OptionalEntries(patch, "approvals");
      var offset := if patch.Object? && "author" in patch.fields then 2 else 1;
      && approvals.Ok? && offset <= |ids|
      && RoleIdentities(approvals.value, "by") == Ok(ids[offset..])
  {
    var uploader := UserIdentity(patch, "uploader");
    var author := AuthorIdentity(patch);
    var approvals := OptionalEntries(patch, "approvals");
    assert uploader.Ok? && author.Ok? && approvals.Ok?;
    var approvers := RoleIdentities(approvals.value, "by");
    assert approvers.Ok?;
    assert ids == [uploader.value] + author.value + approvers.value;
    Joined(uploader.value, author.value, approvers.value);
  }

  /** Where the parts of `[a] + b + c` sit. */
  lemma Joined<T>(a: T, b: seq<T>, c: seq<T>)
    ensures var s := [a] + b + c;
      && |s| == 1 + |b| + |c| && s[0] == a && (|b| > 0 ==> s[1] == b[0])
      && s[1 + |b|..] == c
  {
  }

  function SumMentions(patches: seq<Json>): nat
    decreases |patches|
  {
    if patches == [] then 0 else Mentions(patches[0]) + SumMentions(patches[1..])
  }

  /** The results of `f` on `xs`, one after the other, stopping at the first exception. */
  function Concatenated<T>(f: T -> Result<seq<Dict>>, xs: seq<T>): Result<seq<Dict>>
    decreases |xs|
  {
    if xs == [] then Ok([])
    else
      var head :- f(xs[0]);
      var tail :- Concatenated(f, xs[1..]);
      Ok(head + tail)
  }

  /** The identities of the patch sets, one patch set after the other. */
  function PatchSetIdentities(patches: seq<Json>): Result<seq<Dict>> {
    Concatenated(PatchIdentities, patches)
  }
  /** The patch sets account for `SumMentions` identities. */
  lemma {:induction false} PatchSetCount(patches: seq<Json>)
    requires PatchSetIdentities(patches).Ok?
    ensures |PatchSetIdentities(patches).value| == SumMentions(patches)
    decreases |patches|
  {
    if patches != [] {
      PatchCount(patches[0], PatchIdentities(patches[0]).value);
      PatchSetCount(patches[1..]);
    }
  }

  /** What `get_identities` returns or raises. */
  function Identities(item: Dict): Result<seq<Dict>> {
    var data :- Field(item, "data");
    var owner :- UserIdentity(data, "owner");
    var patches :- OptionalEntries(data, "patchSets");
    var fromPatches :- PatchSetIdentities(patches);
    var comments :- OptionalEntries(data, "comments");
    var fromComments :- RoleIdentities(comments, "reviewer");
    Ok([owner] + fromPatches + fromComments)
  }

  /** `get_identities` lists the owner first, then `Mentions` identities per
      patch set, then one reviewer per comment, in order. */
  lemma IdentitiesLayout(item: Dict)
    requires Identities(item).Ok?
    ensures var ids := Identities(item).value;
      var data := item["data"];
      var patches := OptionalEntries(data, "patchSets").value;
      var comments := OptionalEntries(data, "comments").value;
      && |ids| == 1 + SumMentions(patches) + |comments|
      && UserIdentity(data, "owner") == Ok(ids[0])
      && forall i :: 0 <= i < |comments| ==> UserIdentity(comments[i], "reviewer") == Ok(ids[1 + SumMentions(patches) + i])
  {
    PatchSetCount(OptionalEntries(item["data"], "patchSets").value);
  }

  /** One iteration of the `by`/`reviewer` loops of `get_identities`. */
  lemma RoleIdentitiesStep(xs: seq<Json>, key: string, i: nat, acc: seq<Dict>)
    requires i < |xs|
    ensures var head := UserIdentity(xs[i], key);
      Then(acc, RoleIdentities(xs[i..], key))
      == if head.Err? then Err(head.error) else Then(acc + [head.value], RoleIdentities(xs[i + 1..], key))
  {
    assert xs[i..][0] == xs[i] && xs[i..][1..] == xs[i + 1..];
    var head := UserIdentity(xs[i], key);
    var tail := RoleIdentities(xs[i + 1..], key);
    if head.Ok? && tail.Ok? {
      assert acc + ([head.value] + tail.value) == (acc + [head.value]) + tail.value;
    }
  }

  /** One iteration of a loop that concatenates the results of `f`. */
  lemma ConcatenatedStep<T>(f: T -> Result<seq<Dict>>, xs: seq<T>, i: nat, acc: seq<Dict>)
    requires i < |xs|
    ensures var head := f(xs[i]);
      Then(acc, Concatenated(f, xs[i..]))
      == if head.Err? then Err(head.error) else Then(acc + head.value, Concatenated(f, xs[i + 1..]))
  {
    assert xs[i..][0] == xs[i] && xs[i..][1..] == xs[i + 1..];
    var head := f(xs[i]);
    var tail := Concatenated(f, xs[i + 1..]);
    if head.Ok? && tail.Ok? {
      assert acc + (head.value + tail.value) == (acc + head.value) + tail.value;
    }
  }

  /** The inner loops of `get_identities`: one identity per entry. */
  method CollectRoleIdentities(xs: seq<Json>, key: string) returns (r: Result<seq<Dict>>)
    ensures r == RoleIdentities(xs, key)
  {
    var identities: seq<Dict> := [];
    assert xs[0..] == xs;
    assert RoleIdentities(xs, key).Ok? ==> [] + RoleIdentities(xs, key).value == RoleIdentities(xs, key).value;
    var i := 0;
    while i < |xs|
      invariant 0 <= i <= |xs|
      invariant RoleIdentities(xs, key) == Then(identities, RoleIdentities(xs[i..], key))
    {
      RoleIdentitiesStep(xs, key, i, identities);
      var identity := UserIdentity(xs[i], key);
      if identity.Err? {
        return Err(identity.error);
      }
      identities := identities + [identity.value];
      i := i + 1;
    }
    assert xs[i..] == [] && identities + [] == identities;
    r := Ok(identities);
  }

  /** The body of the patch-set loop of `get_identities`. */
  method CollectPatchIdentities(patch: Json) returns (r: Result<seq<Dict>>)
    ensures r == PatchIdentities(patch)
  {
    var uploader :- UserIdentity(patch, "uploader");
    var identities := [uploader];
    var hasAuthor :- Contains(patch, "author");
    if hasAuthor {
      var author :- UserIdentity(patch, "author");
      identities := identities + [author];
    }
    assert AuthorIdentity(patch).Ok? && identities == [uploader] + AuthorIdentity(patch).value;
    var approvals :- OptionalEntries(patch, "approvals");
    var approvers :- CollectRoleIdentities(approvals, "by");
    r := Ok(identities + approvers);
  }

  /** The patch-set loop of `get_identities`. */
  method CollectPatchSetIdentities(patches: seq<Json>) returns (r: Result<seq<Dict>>)
    ensures r == PatchSetIdentities(patches)
  {
    var identities: seq<Dict> := [];
    ghost var whole := Concatenated(PatchIdentities, patches);
    assert patches[0..] == patches;
    assert whole.Ok? ==> [] + whole.value == whole.value;
    var i := 0;
    while i < |patches|
      invariant 0 <= i <= |patches|
      invariant whole == Then(identities, Concatenated(PatchIdentities, patches[i..]))
    {
      ConcatenatedStep(PatchIdentities, patches, i, identities);
      var fromPatch := CollectPatchIdentities(patches[i]);
      if fromPatch.Err? {
        return Err(fromPatch.error);
      }
      identities := identities + fromPatch.value;
      i := i + 1;
    }
    assert patches[i..] == [] && identities + [] == identities;
    r := Ok(identities);
  }

  /** `get_identities`. */
  method GetIdentities(item: Dict) returns (r: Result<seq<Dict>>)
    ensures r == Identities(item)
  {
    var data :- Field(item, "data");
    var owner :- UserIdentity(data, "owner");
    var patches :- OptionalEntries(data, "patchSets");
    var fromPatches :- CollectPatchSetIdentities(patches);
    var comments :- OptionalEntries(data, "comments");
    var reviewers :- CollectRoleIdentities(comments, "reviewer");
    r := Ok([owner] + fromPatches + reviewers);
  }

  // ----- _fix_review_dates -----

  /** `entry[key] = date(entry[key])`, where `date` stands for
      `time.strftime('%Y-%m-%dT%H:%M:%S', time.localtime(...))`: only that
      key of the dict changes. */
  function DatedEntry(date: Json -> Result<Json>, entry: Json, key: string): (r: Result<Json>)
    ensures r.Ok? <==> (Get(entry, key).Ok? && date(entry.fields[key]).Ok?)
    ensures r.Ok? ==> (r.value.Object? && r.value.fields.Keys == entry.fields.Keys
      && r.value.fields[key] == date(entry.fields[key]).value
      && forall k :: k in entry.fields && k != key ==> r.value.fields[k] == entry.fields[k])
  {
    var value :- Get(entry, key);
    var dated :- date(value);
    Ok(Object(entry.fields[key := dated]))
  }

  /** The rewrite of one date key, as a value that `ListRewritten` can apply. */
  function DateRewrite(date: Json -> Result<Json>, key: string): Json -> Result<Json> {
    entry => DatedEntry(date, entry, key)
  }

  /** `f` on each of `xs`, stopping at the first exception. */
  function Mapped(f: Json -> Result<Json>, xs: seq<Json>): (r: Result<seq<Json>>)
    ensures r.Ok? <==> forall i :: 0 <= i < |xs| ==> f(xs[i]).Ok?
    ensures r.Ok? ==> |r.value| == |xs| && forall i :: 0 <= i < |xs| ==> f(xs[i]) == Ok(r.value[i])
    decreases |xs|
  {
    if xs == [] then Ok([])
    else
      var head :- f(xs[0]);
      var tail :- Mapped(f, xs[1..]);
      Ok([head] + tail)
  }

  /** A `for` loop over `v` that rewrites each entry in place with `f`. Only
      the entries of a list can be rewritten: those of a string are
      one-letter strings, which `f` cannot index by a key, and an empty
      string or dict has none. */
  function ListRewritten(f: Json -> Result<Json>, v: Json): (r: Result<Json>)
    ensures r.Ok? && v.List? ==> r.value.List? && Mapped(f, v.items) == Ok(r.value.items)
    ensures r.Ok? && !v.List? ==> r.value == v
  {
    var entries :- Iter(v);
    var rewritten :- Mapped(f, entries);
    Ok(if v.List? then List(rewritten) else v)
  }

  /** The rewrite of one patch set: its `createdOn`, then, when it has
      approvals, the `grantedOn` of each approval. */
  function DatedPatch(date: Json -> Result<Json>, patch: Json): (r: Result<Json>)
    ensures r.Ok? ==> (patch.Object? && r.value.Object? && r.value.fields.Keys == patch.fields.Keys
      && "createdOn" in patch.fields && date(patch.fields["createdOn"]) == Ok(r.value.fields["createdOn"])
      && ("approvals" in patch.fields ==>
            ListRewritten(DateRewrite(date, "grantedOn"), patch.fields["approvals"]) == Ok(r.value.fields["approvals"]))
      && forall k :: k in patch.fields && k != "createdOn" && k != "approvals" ==> r.value.fields[k] == patch.fields[k])
  {
    var dated :- DatedEntry(date, patch, "createdOn");
    if "approvals" in dated.fields then
      var approvals :- ListRewritten(DateRewrite(date, "grantedOn"), dated.fields["approvals"]);
      Ok(Object(dated.fields["approvals" := approvals]))
    else Ok(dated)
  }

  function PatchRewrite(date: Json -> Result<Json>): Json -> Result<Json> {
    patch => DatedPatch(date, patch)
  }

  /** The dates of the review itself. */
  const TopDates: seq<string> := ["timestamp", "createdOn", "lastUpdated"]

  /** `if key in fields: fields[key] = date(fields[key])`. */
  function DatedField(date: Json -> Result<Json>, fields: Dict, key: string): (r: Result<Dict>)
    ensures r.Ok? ==> r.value.Keys == fields.Keys && forall k :: k in fields && k != key ==> r.value[k] == fields[k]
    ensures r.Ok? && key in fields ==> date(fields[key]) == Ok(r.value[key])
    ensures key !in fields ==> r == Ok(fields)
  {
    if key in fields then (var dated :- date(fields[key]); Ok(fields[key := dated])) else Ok(fields)
  }

  /** The loop over the review's own dates, `keys` in order. */
  function DatedTop(date: Json -> Result<Json>, fields: Dict, keys: seq<string>): (r: Result<Dict>)
    ensures r.Ok? ==> r.value.Keys == fields.Keys && forall k :: k in fields && k !in keys ==> r.value[k] == fields[k]
    decreases |keys|
  {
    if keys == [] then Ok(fields)
    else
      var next :- DatedField(date, fields, keys[0]);
      DatedTop(date, next, keys[1..])
  }

  /** Each of distinct `keys` that the dict has is rewritten once. */
  lemma {:induction false} DatedTopRewrites(date: Json -> Result<Json>, fields: Dict, keys: seq<string>)
    requires DatedTop(date, fields, keys).Ok?
    requires forall i, j :: 0 <= i < j < |keys| ==> keys[i] != keys[j]
    ensures forall k :: k in keys && k in fields ==> date(fields[k]) == Ok(DatedTop(date, fields, keys).value[k])
    decreases |keys|
  {
    if keys != [] {
      var next := DatedField(date, fields, keys[0]).value;
      assert forall i, j :: 0 <= i < j < |keys[1..]| ==> keys[1..][i] != keys[1..][j] by {
        forall i, j | 0 <= i < j < |keys[1..]| ensures keys[1..][i] != keys[1..][j] {
          assert keys[1..][i] == keys[i + 1] && keys[1..][j] == keys[j + 1];
        }
      }
      DatedTopRewrites(date, next, keys[1..]);
      forall k | k in keys && k in fields
        ensures date(fields[k]) == Ok(DatedTop(date, fields, keys).value[k])
      {
        if k == keys[0] {
          assert k !in keys[1..] by {
            forall j | 0 <= j < |keys[1..]| ensures keys[1..][j] != k {
              assert keys[1..][j] == keys[j + 1];
            }
          }
        } else {
          assert k in keys[1..];
        }
      }
    }
  }

  /** `for x in fields[key]: <rewrite x with f>` when the dict has `key`. */
  function RewrittenKey(f: Json -> Result<Json>, fields: Dict, key: string): (r: Result<Dict>)
    ensures r.Ok? ==> r.value.Keys == fields.Keys && forall k :: k in fields && k != key ==> r.value[k] == fields[k]
    ensures r.Ok? && key in fields ==> ListRewritten(f, fields[key]) == Ok(r.value[key])
    ensures key !in fields ==> r == Ok(fields)
  {
    if key in fields then (var rewritten :- ListRewritten(f, fields[key]); Ok(fields[key := rewritten])) else Ok(fields)
  }

  /** `_fix_review_dates` on a review: its own dates, its patch sets and their
      approvals, and its comments' timestamps. Only a dict has `keys()`. */
  function DatedReview(date: Json -> Result<Json>, review: Json): (r: Result<Json>)
    ensures r.Ok? ==> review.Object? && r.value.Object? && r.value.fields.Keys == review.fields.Keys
    ensures r.Ok? ==> forall k :: k in review.fields && k !in TopDates && k != "patchSets" && k != "comments" ==>
      r.value.fields[k] == review.fields[k]
    ensures !review.Object? ==> r == Err(AttributeError)
  {
    if !review.Object? then Err(AttributeError)
    else
      var top :- DatedTop(date, review.fields, TopDates);
      var withPatches :- RewrittenKey(PatchRewrite(date), top, "patchSets");
      var withComments :- RewrittenKey(DateRewrite(date, "timestamp"), withPatches, "comments");
      Ok(Object(withComments))
  }

  /** What `_fix_review_dates` does to the review's own dates, its patch sets
      and its comments. */
  lemma DatedReviewRewrites(date: Json -> Result<Json>, review: Json)
    requires DatedReview(date, review).Ok?
    ensures var fields := review.fields;
      var dated := DatedReview(date, review).value.fields;
      && (forall k :: k in TopDates && k in fields ==> date(fields[k]) == Ok(dated[k]))
      && ("patchSets" in fields ==> ListRewritten(PatchRewrite(date), fields["patchSets"]) == Ok(dated["patchSets"]))
      && ("comments" in fields ==> ListRewritten(DateRewrite(date, "timestamp"), fields["comments"]) == Ok(dated["comments"]))
  {
    var top := DatedTop(date, review.fields, TopDates).value;
    var withPatches := RewrittenKey(PatchRewrite(date), top, "patchSets").value;
    DatedTopRewrites(date, review.fields, TopDates);
    assert "patchSets" !in TopDates && "comments" !in TopDates;
    assert DatedReview(date, review).value.fields == RewrittenKey(DateRewrite(date, "timestamp"), withPatches, "comments").value;
  }

  /** `Mapped` succeeds with `ys` when `f` maps each of `xs` to its `ys`. */
  lemma {:induction false} MappedOk(f: Json -> Result<Json>, xs: seq<Json>, ys: seq<Json>)
    requires |ys| == |xs| && forall j :: 0 <= j < |xs| ==> f(xs[j]) == Ok(ys[j])
    ensures Mapped(f, xs) == Ok(ys)
    decreases |xs|
  {
    if xs != [] {
      assert forall j :: 0 <= j < |xs[1..]| ==> f(xs[1..][j]) == Ok(ys[1..][j]) by {
        forall j | 0 <= j < |xs[1..]| ensures f(xs[1..][j]) == Ok(ys[1..][j]) {
          assert xs[1..][j] == xs[j + 1] && ys[1..][j] == ys[j + 1];
        }
      }
      MappedOk(f, xs[1..], ys[1..]);
      assert ys == [ys[0]] + ys[1..];
    }
  }

  /** `Mapped` raises what `f` raises on the first entry it fails on. */
  lemma {:induction false} MappedErr(f: Json -> Result<Json>, xs: seq<Json>, i: nat)
    requires i < |xs| && (forall j :: 0 <= j < i ==> f(xs[j]).Ok?) && f(xs[i]).Err?
    ensures Mapped(f, xs) == Err(f(xs[i]).error)
    decreases i
  {
    if i > 0 {
      assert forall j :: 0 <= j < i - 1 ==> f(xs[1..][j]).Ok? by {
        forall j | 0 <= j < i - 1 ensures f(xs[1..][j]).Ok? {
          assert xs[1..][j] == xs[j + 1];
        }
      }
      assert xs[1..][i - 1] == xs[i];
      MappedErr(f, xs[1..], i - 1);
    }
  }

  /** The approvals and comments loops of `_fix_review_dates`: `key` of each entry. */
  method RewriteDates(date: Json -> Result<Json>, v: Json, key: string) returns (r: Result<Json>)
    ensures r == ListRewritten(DateRewrite(date, key), v)
  {
    ghost var f := DateRewrite(date, key);
    var entries :- Iter(v);
    var rewritten: seq<Json> := [];
    var i := 0;
    while i < |entries|
      invariant 0 <= i <= |entries|
      invariant |rewritten| == i && forall j :: 0 <= j < i ==> f(entries[j]) == Ok(rewritten[j])
    {
      var entry := DatedEntry(date, entries[i], key);
      if entry.Err? {
        MappedErr(f, entries, i);
        return Err(entry.error);
      }
      rewritten := rewritten + [entry.value];
      i := i + 1;
    }
    MappedOk(f, entries, rewritten);
    r := Ok(if v.List? then List(rewritten) else v);
  }

  /** The body of the patch-set loop of `_fix_review_dates`. */
  method FixPatchDates(date: Json -> Result<Json>, patch: Json) returns (r: Result<Json>)
    ensures r == DatedPatch(date, patch)
  {
    var dated :- DatedEntry(date, patch, "createdOn");
    if "approvals" in dated.fields {
      var approvals :- RewriteDates(date, dated.fields["approvals"], "grantedOn");
      r := Ok(Object(dated.fields["approvals" := approvals]));
    } else {
      r := Ok(dated);
    }
  }

  /** The patch-set loop of `_fix_review_dates`. */
  method RewritePatches(date: Json -> Result<Json>, v: Json) returns (r: Result<Json>)
    ensures r == ListRewritten(PatchRewrite(date), v)
  {
    ghost var f := PatchRewrite(date);
    var patches :- Iter(v);
    var rewritten: seq<Json> := [];
    var i := 0;
    while i < |patches|
      invariant 0 <= i <= |patches|
      invariant |rewritten| == i && forall j :: 0 <= j < i ==> f(patches[j]) == Ok(rewritten[j])
    {
      var patch := FixPatchDates(date, patches[i]);
      if patch.Err? {
        MappedErr(f, patches, i);
        return Err(patch.error);
      }
      rewritten := rewritten + [patch.value];
      i := i + 1;
    }
    MappedOk(f, patches, rewritten);
    r := Ok(if v.List? then List(rewritten) else v);
  }

  /** `_fix_review_dates`, on the review as a value. */
  method FixReviewDates(date: Json -> Result<Json>, review: Json) returns (r: Result<Json>)
    ensures r == DatedReview(date, review)
  {
    if !review.Object? {
      return Err(AttributeError);
    }
    var fields := review.fields;
    var i := 0;
    while i < |TopDates|
      invariant 0 <= i <= |TopDates|
      invariant DatedTop(date, review.fields, TopDates) == DatedTop(date, fields, TopDates[i..])
    {
      assert TopDates[i..][0] == TopDates[i] && TopDates[i..][1..] == TopDates[i + 1..];
      var key := TopDates[i];
      if key in fields {
        var dated := date(fields[key]);
        if dated.Err? {
          return Err(dated.error);
        }
        fields := fields[key := dated.value];
      }
      i := i + 1;
    }
    assert TopDates[i..] == [];
    if "patchSets" in fields {
      var patches :- RewritePatches(date, fields["patchSets"]);
      fields := fields["patchSets" := patches];
    }
    if "comments" in fields {
      var comments :- RewriteDates(date, fields["comments"], "timestamp");
      fields := fields["comments" := comments];
    }
    r := Ok(Object(fields));
  }

  // ----- review_item -----

  /** The connector's settings and the routines it calls but that are not
      modelled: `strftime` of `localtime` (which raises on a value that is not
      a timestamp), `parser.parse`, the `'%.2f'` of the days between a parsed
      date and the clock, and serialisation. */
  datatype Config = Config(
    sortinghat: bool,
    prjsMap: ProjectsMap,
    sh: SortingHat,
    localDate: Json -> Result<Json>,
    parse: Json -> Result<Json>,
    daysOpen: Json -> Json,
    codec: Codec)

  /** The item fields copied into the enriched review, None when absent. */
  const MetadataFields: seq<string> := ["metadata__updated_on", "metadata__timestamp", "ocean-unique-id", "origin"]

  /** The first fields of the enriched review: the metadata fields, each
      copied or None, and `closed`, the item's `metadata__updated_on`. */
  function ReviewHead(item: Dict): (r: Result<Dict>)
    ensures r.Ok? <==> "metadata__updated_on" in item
    ensures r.Ok? ==> ((forall k :: k in r.value <==> k in MetadataFields || k == "closed")
      && (forall k :: k in MetadataFields ==> r.value[k] == Copied(item, k))
      && r.value["closed"] == item["metadata__updated_on"])
  {
    var closed :- Field(item, "metadata__updated_on");
    Ok((map k | k in MetadataFields :: Copied(item, k))["closed" := closed])
  }

  /** The targets of a list of (source, target) field names. */
  function Targets(pairs: seq<(string, string)>): set<string> {
    set i | 0 <= i < |pairs| :: pairs[i].1
  }

  lemma TargetsCons(pairs: seq<(string, string)>)
    requires pairs != []
    ensures Targets(pairs) == {pairs[0].1} + Targets(pairs[1..])
  {
    forall k | k in Targets(pairs) ensures k in {pairs[0].1} + Targets(pairs[1..]) {
      var i :| 0 <= i < |pairs| && pairs[i].1 == k;
      if i > 0 { assert pairs[1..][i - 1] == pairs[i]; }
    }
    forall k | k in Targets(pairs[1..]) ensures k in Targets(pairs) {
      var i :| 0 <= i < |pairs[1..]| && pairs[1..][i].1 == k;
      assert pairs[i + 1] == pairs[1..][i];
    }
  }

  /** `eitem[target] = review[source]` for each pair, in order. */
  function CopyFields(eitem: Dict, review: Json, pairs: seq<(string, string)>): (r: Result<Dict>)
    ensures r.Ok? <==> forall i :: 0 <= i < |pairs| ==> Get(review, pairs[i].0).Ok?
    ensures r.Ok? ==> r.value.Keys == eitem.Keys + Targets(pairs)
    ensures r.Ok? ==> forall k :: k in eitem && k !in Targets(pairs) ==> r.value[k] == eitem[k]
    decreases |pairs|
  {
    if pairs == [] then Ok(eitem)
    else
      TargetsCons(pairs);
      assert forall i :: 0 <= i < |pairs[1..]| ==> pairs[1..][i] == pairs[i + 1];
      var value :- Get(review, pairs[0].0);
      CopyFields(eitem[pairs[0].1 := value], review, pairs[1..])
  }

  /** With distinct targets, each target holds its source's value. */
  lemma {:induction false} CopyFieldsCopies(eitem: Dict, review: Json, pairs: seq<(string, string)>)
    requires CopyFields(eitem, review, pairs).Ok?
    requires forall i, j :: 0 <= i < j < |pairs| ==> pairs[i].1 != pairs[j].1
    ensures forall i :: 0 <= i < |pairs| ==>
      && pairs[i].1 in CopyFields(eitem, review, pairs).value && review.Object? && pairs[i].0 in review.fields
      && CopyFields(eitem, review, pairs).value[pairs[i].1] == review.fields[pairs[i].0]
    decreases |pairs|
  {
    if pairs != [] {
      var value := Get(review, pairs[0].0).value;
      var rest := pairs[1..];
      assert forall i, j :: 0 <= i < j < |rest| ==> rest[i].1 != rest[j].1 by {
        forall i, j | 0 <= i < j < |rest| ensures rest[i].1 != rest[j].1 {
          assert rest[i] == pairs[i + 1] && rest[j] == pairs[j + 1];
        }
      }
      var whole := CopyFields(eitem, review, pairs).value;
      assert CopyFields(eitem, review, pairs) == CopyFields(eitem[pairs[0].1 := value], review, rest);
      CopyFieldsCopies(eitem[pairs[0].1 := value], review, rest);
      assert pairs[0].1 !in Targets(rest) by {
        forall j | 0 <= j < |rest| ensures rest[j].1 != pairs[0].1 {
          assert rest[j] == pairs[j + 1];
        }
      }
      forall i | 0 <= i < |pairs|
        ensures && pairs[i].1 in whole && review.Object? && pairs[i].0 in review.fields
          && whole[pairs[i].1] == review.fields[pairs[i].0]
      {
        if i > 0 { assert pairs[i] == rest[i - 1]; }
      }
    }
  }

  /** The review fields copied as they are, and those renamed. */
  const DataCopies: seq<(string, string)> := [("status", "status"), ("branch", "branch"), ("url", "url")]
  const Renames: seq<(string, string)> :=
    [("subject", "summary"), ("id", "githash"), ("createdOn", "opened"), ("project", "repository"), ("number", "number")]

  const DataKeys: set<string> := {"status", "branch", "url"}
  const RenamedKeys: set<string> := {"summary", "githash", "opened", "repository", "number"}

  lemma TargetsKnown()
    ensures Targets(DataCopies) == DataKeys && Targets(Renames) == RenamedKeys
  {
    assert DataCopies[0].1 == "status" && DataCopies[1].1 == "branch" && DataCopies[2].1 == "url";
    assert Renames[0].1 == "summary" && Renames[1].1 == "githash" && Renames[2].1 == "opened";
    assert Renames[3].1 == "repository" && Renames[4].1 == "number";
  }

  /** Each (source, target) pair's target in `e` holds the review's source field. */
  ghost predicate Copies(e: Dict, review: Json, pairs: seq<(string, string)>) {
    forall i :: 0 <= i < |pairs| ==>
      && pairs[i].1 in e && review.Object? && pairs[i].0 in review.fields
      && e[pairs[i].1] == review.fields[pairs[i].0]
  }

  /** The copy loops copy `status`, `branch` and `url`, rename the other five
      fields, and leave the metadata fields as they were. */
  lemma ReviewCopiesFields(head: Dict, review: Json)
    requires ReviewCopies(head, review).Ok?
    ensures var c := ReviewCopies(head, review).value;
      && Copies(c, review, DataCopies) && Copies(c, review, Renames)
      && forall k :: k in head && k !in DataKeys && k !in RenamedKeys ==> k in c && c[k] == head[k]
  {
    TargetsDistinct();
    var copied := CopyFields(head, review, DataCopies).value;
    var c := CopyFields(copied, review, Renames).value;
    CopyFieldsCopies(head, review, DataCopies);
    CopyFieldsCopies(copied, review, Renames);
    forall i | 0 <= i < |DataCopies|
      ensures DataCopies[i].1 in c && c[DataCopies[i].1] == copied[DataCopies[i].1]
    {
      var t := DataCopies[i].1;
      assert t in copied;
      assert t !in Targets(Renames);
    }
  }

  lemma TargetsDistinct()
    ensures forall i, j :: 0 <= i < j < |DataCopies| ==> DataCopies[i].1 != DataCopies[j].1
    ensures forall i, j :: 0 <= i < j < |Renames| ==> Renames[i].1 != Renames[j].1
    ensures forall i, j :: 0 <= i < |DataCopies| && 0 <= j < |Renames| ==> DataCopies[i].1 != Renames[j].1
  {
  }

  /** `name` and `domain` from the review's owner: the name when the owner
      has one, and then, when it also has an email with an '@', the text
      after the first '@' up to a second one; None otherwise. An email that
      is not a string cannot be asked for '@' (`None`) or has no `split`. */
  function OwnerNameDomain(review: Json): (r: Result<(Json, Json)>)
    ensures r.Ok? ==> Get(review, "owner").Ok?
    ensures r.Ok? ==> var owner := review.fields["owner"];
      var named := owner.Object? && "name" in owner.fields;
      && r.value.0 == (if named then owner.fields["name"] else Null)
      && r.value.1 == (if named && "email" in owner.fields && owner.fields["email"].Str? && '@' in owner.fields["email"].s
                       then Str(TakeUntil(DropThrough(owner.fields["email"].s, '@'), '@')) else Null)
  {
    var owner :- Get(review, "owner");
    var hasName :- Contains(owner, "name");
    if !hasName then Ok((Null, Null))
    else
      var name :- Get(owner, "name");
      var hasEmail :- Contains(owner, "email");
      if !hasEmail then Ok((name, Null))
      else
        var email :- Get(owner, "email");
        var hasAt :- Contains(email, "@");
        if !hasAt then (if email.Str? then CharSubstring('@', email.s); Ok((name, Null)) else Ok((name, Null)))
        else
          var parts :- SplitJson(email, '@');
          CharSubstring('@', email.s);
          SplitSecond(email.s, '@');
          Ok((name, Str(parts[1])))
  }

  /** The two copy loops of `review_item`. */
  function ReviewCopies(head: Dict, review: Json): (r: Result<Dict>)
    ensures r.Ok? ==> r.value.Keys == head.Keys + DataKeys + RenamedKeys
  {
    TargetsKnown();
    var copied :- CopyFields(head, review, DataCopies);
    CopyFields(copied, review, Renames)
  }

  /** The fields `review_item` takes from the (date-rewritten) review: the
      copies and renames, `summary_analyzed`, the owner's `name` and
      `domain`, and the number of patch sets. */
  function ReviewBody(head: Dict, review: Json): (r: Result<Dict>)
    ensures r.Ok? ==> r.value.Keys == head.Keys + DataKeys + RenamedKeys + {"summary_analyzed", "name", "domain", "patchsets"}
  {
    var renamed :- ReviewCopies(head, review);
    var owner :- OwnerNameDomain(review);
    var patches :- Get(review, "patchSets");
    var count :- Len(patches);
    Ok(renamed + map["summary_analyzed" := renamed["summary"], "name" := owner.0, "domain" := owner.1,
                     "patchsets" := Int(count)])
  }

  /** The fields `review_item` adds after the copy loops. */
  const BodyKeys: set<string> := {"summary_analyzed", "name", "domain", "patchsets"}

  /** The review body holds the copied and renamed fields, the metadata it
      started from, `summary_analyzed` equal to the subject, the owner's
      name and domain, and `patchsets` equal to `len(review['patchSets'])`. */
  lemma ReviewBodyFields(head: Dict, review: Json)
    requires ReviewBody(head, review).Ok?
    ensures BodyFacts(ReviewBody(head, review).value, head, review)
  {
    var renamed := ReviewCopies(head, review).value;
    ReviewCopiesFields(head, review);
    var owner := OwnerNameDomain(review).value;
    var count := Len(review.fields["patchSets"]).value;
    assert ReviewBody(head, review).value == renamed + map["summary_analyzed" := renamed["summary"], "name" := owner.0,
      "domain" := owner.1, "patchsets" := Int(count)];
    BodyExtends(head, renamed, review, owner, count);
  }

  ghost predicate BodyFacts(b: Dict, head: Dict, review: Json) {
      && Copies(b, review, DataCopies) && Copies(b, review, Renames)
      && (forall k :: k in head && k !in DataKeys && k !in RenamedKeys && k !in BodyKeys ==> k in b && b[k] == head[k])
      && review.Object? && "subject" in review.fields
      && "summary_analyzed" in b && b["summary_analyzed"] == review.fields["subject"]
      && OwnerFacts(b, review)
      && "patchSets" in review.fields && Len(review.fields["patchSets"]).Ok?
      && "patchsets" in b && b["patchsets"] == Int(Len(review.fields["patchSets"]).value)
  }

  /** The four fields added after the copy loops leave the copies alone. */
  lemma BodyExtends(head: Dict, renamed: Dict, review: Json, owner: (Json, Json), count: nat)
    requires Copies(renamed, review, DataCopies) && Copies(renamed, review, Renames)
    requires forall k :: k in head && k !in DataKeys && k !in RenamedKeys ==> k in renamed && renamed[k] == head[k]
    ensures "summary" in renamed
    ensures var b := renamed + map["summary_analyzed" := renamed["summary"], "name" := owner.0,
      "domain" := owner.1, "patchsets" := Int(count)];
      && Copies(b, review, DataCopies) && Copies(b, review, Renames)
      && (forall k :: k in head && k !in DataKeys && k !in RenamedKeys && k !in BodyKeys ==> k in b && b[k] == head[k])
      && review.Object? && "subject" in review.fields && b["summary_analyzed"] == review.fields["subject"]
      && b["name"] == owner.0 && b["domain"] == owner.1 && b["patchsets"] == Int(count)
  {
    assert Renames[0] == ("subject", "summary");
    forall i | 0 <= i < |DataCopies| ensures DataCopies[i].1 !in BodyKeys {
      if i == 0 {} else if i == 1 {} else {}
    }
    forall i | 0 <= i < |Renames| ensures Renames[i].1 !in BodyKeys {
      if i == 0 {} else if i == 1 {} else if i == 2 {} else if i == 3 {} else {}
    }
  }

  /** The `'%.2f'` days since the review was opened: since its first patch
      set was created when it has patch sets, else since it was created.
      Both dates are parsed; either parse may raise. */
  function TimeOpen(cfg: Config, review: Json): (r: Result<Json>)
    ensures r.Ok? ==> Get(review, "createdOn").Ok? && cfg.parse(review.fields["createdOn"]).Ok?
    ensures r.Ok? && Get(review, "patchSets").Ok? && review.fields["patchSets"].List? ==>
      var patches := review.fields["patchSets"].items;
      if |patches| == 0 then r.value == cfg.daysOpen(cfg.parse(review.fields["createdOn"]).value)
      else (Get(patches[0], "createdOn").Ok? && cfg.parse(patches[0].fields["createdOn"]).Ok?
        && r.value == cfg.daysOpen(cfg.parse(patches[0].fields["createdOn"]).value))
  {
    var created :- Get(review, "createdOn");
    var createdDate :- cfg.parse(created);
    var patches :- Get(review, "patchSets");
    var count :- Len(patches);
    var openDate :-
      if count > 0 then (var first :- At(patches, 0); var firstCreated :- Get(first, "createdOn"); cfg.parse(firstCreated))
      else Ok(createdDate);
    Ok(cfg.daysOpen(openDate))
  }

  /** The review document before its SortingHat and project updates, and
      the item as `_fix_review_dates` leaves it, with the review's dates
      rewritten in place. */
  function ReviewDoc(cfg: Config, item: Dict): (r: Result<(Dict, Dict)>)
    ensures r.Ok? ==> "ocean-unique-id" in r.value.0
  {
    var head :- ReviewHead(item);
    assert "ocean-unique-id" in head;
    var review :- Field(item, "data");
    var dated :- DatedReview(cfg.localDate, review);
    var body :- ReviewBody(head, dated);
    assert "ocean-unique-id" in body;
    var timeopen :- TimeOpen(cfg, dated);
    Ok((body + map["timeopen" := timeopen], item["data" := dated]))
  }

  /** The date rewrite leaves the review's owner and project alone, so the
      SortingHat and project lookups, which see the rewritten item, resolve
      what they would have resolved on the raw one. */
  lemma DatedItemLookups(date: Json -> Result<Json>, item: Dict, dated: Json)
    requires "data" in item && DatedReview(date, item["data"]) == Ok(dated)
    ensures OwnerIdentity(item["data" := dated]) == OwnerIdentity(item)
    ensures RepositoryKey(item["data" := dated]) == RepositoryKey(item)
    ensures OwnerNameDomain(dated) == OwnerNameDomain(item["data"])
  {
    var review := item["data"];
    assert "owner" !in TopDates && "project" !in TopDates;
    SameLookups(item, item["data" := dated]);
  }

  /** Items whose reviews have the same owner and project resolve the same. */
  lemma SameLookups(item: Dict, other: Dict)
    requires "data" in item && "data" in other
    requires Get(item["data"], "owner") == Get(other["data"], "owner")
    requires Get(item["data"], "project") == Get(other["data"], "project")
    requires Field(item, "origin") == Field(other, "origin")
    ensures OwnerIdentity(other) == OwnerIdentity(item)
    ensures RepositoryKey(other) == RepositoryKey(item)
    ensures OwnerNameDomain(other["data"]) == OwnerNameDomain(item["data"])
  {
  }

  /** The fields of the enriched review that come from the item and its
      review whatever the SortingHat and project settings: the metadata
      copies and `closed`, the copied and renamed review fields,
      `summary_analyzed` and `patchsets`. */
  ghost predicate CopyFacts(e: Dict, item: Dict, review: Json) {
    && (forall k :: k in MetadataFields ==> k in e && e[k] == Copied(item, k))
    && "metadata__updated_on" in item && "closed" in e && e["closed"] == item["metadata__updated_on"]
    && Copies(e, review, DataCopies) && Copies(e, review, Renames)
    && review.Object? && "subject" in review.fields
    && "summary_analyzed" in e && e["summary_analyzed"] == review.fields["subject"]
    && "patchSets" in review.fields && Len(review.fields["patchSets"]).Ok?
    && "patchsets" in e && e["patchsets"] == Int(Len(review.fields["patchSets"]).value)
  }

  /** `name` and `domain` as `review_item` derives them from the owner. */
  ghost predicate OwnerFacts(e: Dict, review: Json) {
    "name" in e && "domain" in e && OwnerNameDomain(review) == Ok((e["name"], e["domain"]))
  }

  /** The later updates (`timeopen`, the SortingHat fields, `project`)
      touch none of the fields `CopyFacts` speaks of. */
  lemma CopyFactsKept(e: Dict, item: Dict, review: Json, extra: Dict)
    requires CopyFacts(e, item, review)
    requires forall k :: k in extra ==> LateKey(k)
    ensures CopyFacts(e + extra, item, review)
  {
    ExtraKeysApart(extra);
  }

  /** A field that `timeopen`, the SortingHat update or the project update sets. */
  predicate LateKey(k: string) {
    k in ShFields || k == "timeopen" || k == "project"
  }

  lemma ExtraKeysApart(extra: Dict)
    requires forall k :: k in extra ==> LateKey(k)
    ensures forall k :: k in MetadataFields ==> k !in extra
    ensures "closed" !in extra && "summary_analyzed" !in extra && "patchsets" !in extra
    ensures forall i :: 0 <= i < |DataCopies| ==> DataCopies[i].1 !in extra
    ensures forall i :: 0 <= i < |Renames| ==> Renames[i].1 !in extra
  {
    MetadataNotLate();
    TargetsNotLate();
  }

  lemma MetadataNotLate()
    ensures forall k :: k in MetadataFields ==> !LateKey(k)
    ensures !LateKey("closed") && !LateKey("summary_analyzed") && !LateKey("patchsets")
  {
    forall k | k in MetadataFields ensures !LateKey(k) {
      assert k in ["metadata__updated_on", "metadata__timestamp", "ocean-unique-id", "origin"];
    }
  }

  lemma TargetsNotLate()
    ensures forall i :: 0 <= i < |DataCopies| ==> !LateKey(DataCopies[i].1)
    ensures forall i :: 0 <= i < |Renames| ==> !LateKey(Renames[i].1)
  {
    forall i | 0 <= i < |DataCopies| ensures !LateKey(DataCopies[i].1) {
      if i == 0 {} else if i == 1 {} else {}
    }
    forall i | 0 <= i < |Renames| ensures !LateKey(Renames[i].1) {
      if i == 0 {} else if i == 1 {} else if i == 2 {} else if i == 3 {} else {}
    }
  }

  /** The review document, in terms of the item and its date-rewritten review. */
  lemma ReviewDocFields(cfg: Config, item: Dict)
    requires ReviewDoc(cfg, item).Ok?
    ensures "data" in item && DatedReview(cfg.localDate, item["data"]).Ok?
    ensures var dated := DatedReview(cfg.localDate, item["data"]).value;
      var doc := ReviewDoc(cfg, item).value;
      && doc.1 == item["data" := dated]
      && CopyFacts(doc.0, item, dated) && OwnerFacts(doc.0, dated)
      && "timeopen" in doc.0 && TimeOpen(cfg, dated) == Ok(doc.0["timeopen"])
  {
    var head := ReviewHead(item).value;
    var dated := DatedReview(cfg.localDate, item["data"]).value;
    var body := ReviewBody(head, dated).value;
    var timeopen := TimeOpen(cfg, dated).value;
    assert ReviewDoc(cfg, item).value == (body + map["timeopen" := timeopen], item["data" := dated]);
    ReviewBodyFields(head, dated);
    DocFacts(item, head, dated, body, timeopen);
  }

  lemma DocFacts(item: Dict, head: Dict, dated: Json, body: Dict, timeopen: Json)
    requires ReviewHead(item) == Ok(head) && BodyFacts(body, head, dated)
    ensures CopyFacts(body + map["timeopen" := timeopen], item, dated)
    ensures OwnerFacts(body + map["timeopen" := timeopen], dated)
  {
    HeadKept(item, head, body);
    assert CopyFacts(body, item, dated);
    CopyFactsKept(body, item, dated, map["timeopen" := timeopen]);
    OwnerFactsKept(body, dated, map["timeopen" := timeopen]);
  }

  lemma OwnerFactsKept(e: Dict, review: Json, extra: Dict)
    requires OwnerFacts(e, review) && "name" !in extra && "domain" !in extra
    ensures OwnerFacts(e + extra, review)
  {
    var nd := OwnerNameDomain(review).value;
    assert (e + extra)["name"] == nd.0 && (e + extra)["domain"] == nd.1;
  }

  /** The copy loops and the fields added after them leave the metadata alone. */
  lemma HeadKept(item: Dict, head: Dict, body: Dict)
    requires ReviewHead(item) == Ok(head)
    requires forall k :: k in head && k !in DataKeys && k !in RenamedKeys && k !in BodyKeys ==> k in body && body[k] == head[k]
    ensures forall k :: k in MetadataFields ==> k in body && body[k] == Copied(item, k)
    ensures "closed" in body && body["closed"] == item["metadata__updated_on"]
  {
    MetadataNotCopied();
  }

  lemma MetadataNotCopied()
    ensures forall k :: k in MetadataFields ==> k !in DataKeys && k !in RenamedKeys && k !in BodyKeys
  {
    forall k | k in MetadataFields ensures k !in DataKeys && k !in RenamedKeys && k !in BodyKeys {
      assert k in ["metadata__updated_on", "metadata__timestamp", "ocean-unique-id", "origin"];
    }
  }

  /** What `review_item` puts in the enriched review, or the exception it
      raises: the review document, then the SortingHat fields, then
      `project`, each overriding what is there. The SortingHat and project
      lookups see the item with its dates rewritten. */
  function ReviewEItem(cfg: Config, item: Dict): (r: Result<Dict>)
    ensures r.Ok? ==> "ocean-unique-id" in r.value
  {
    var doc :- ReviewDoc(cfg, item);
    LateUpdate(cfg, doc.0, doc.1)
  }

  /** The SortingHat update and then the project update of a review
      document, both looked up on the (date-rewritten) item. */
  function LateUpdate(cfg: Config, doc: Dict, item: Dict): (r: Result<Dict>)
    ensures r.Ok? ==> doc.Keys <= r.value.Keys
  {
    var withIdentity :- SortingHatUpdate(cfg, doc, item);
    ProjectUpdate(cfg, withIdentity, item)
  }

  /** `eitem.update(self.get_item_sh(item))` when SortingHat is on. */
  function SortingHatUpdate(cfg: Config, doc: Dict, item: Dict): (r: Result<Dict>)
    ensures r.Ok? ==> doc.Keys <= r.value.Keys
  {
    if cfg.sortinghat then (var shFields :- ItemSh(cfg.sh, item); Ok(doc + shFields)) else Ok(doc)
  }

  /** `eitem.update(self.get_item_project(item))` when a projects map is set. */
  function ProjectUpdate(cfg: Config, doc: Dict, item: Dict): (r: Result<Dict>)
    ensures r.Ok? ==> doc.Keys <= r.value.Keys
  {
    if |cfg.prjsMap| > 0 then (var projectFields :- ItemProject(cfg.prjsMap, item); Ok(doc + projectFields)) else Ok(doc)
  }

  /** The enriched review in terms of the item: the fields `CopyFacts`
      lists, `timeopen`, the owner's name and domain when SortingHat is off
      and the owner's SortingHat identity when it is on (the SortingHat
      `name` and `domain` override the owner's), and the project of the
      item's repository when a projects map is set. */
  lemma ReviewEItemFields(cfg: Config, item: Dict)
    requires ReviewEItem(cfg, item).Ok?
    ensures "data" in item && DatedReview(cfg.localDate, item["data"]).Ok?
    ensures var dated := DatedReview(cfg.localDate, item["data"]).value;
      var e := ReviewEItem(cfg, item).value;
      && CopyFacts(e, item, dated)
      && "timeopen" in e && TimeOpen(cfg, dated) == Ok(e["timeopen"])
      && (!cfg.sortinghat ==> OwnerFacts(e, item["data"]))
      && (cfg.sortinghat ==> OwnerResolved(cfg.sh, item, e))
      && (|cfg.prjsMap| > 0 ==> "project" in e && ItemProject(cfg.prjsMap, item) == Ok(map["project" := e["project"]]))
  {
    ReviewDocFields(cfg, item);
    var dated := DatedReview(cfg.localDate, item["data"]).value;
    var doc := ReviewDoc(cfg, item).value;
    DatedItemLookups(cfg.localDate, item, dated);
    LateUpdateFields(cfg, doc.0, doc.1, item, dated);
  }

  /** What the late updates keep and what they set, for a document built
      from `item`, looked up on an item with the same owner and repository. */
  lemma LateUpdateFields(cfg: Config, doc: Dict, datedItem: Dict, item: Dict, dated: Json)
    requires LateUpdate(cfg, doc, datedItem).Ok?
    requires CopyFacts(doc, item, dated) && OwnerFacts(doc, dated) && "timeopen" in doc
    requires OwnerIdentity(datedItem) == OwnerIdentity(item) && RepositoryKey(datedItem) == RepositoryKey(item)
    ensures var e := LateUpdate(cfg, doc, datedItem).value;
      && CopyFacts(e, item, dated) && "timeopen" in e && e["timeopen"] == doc["timeopen"]
      && (!cfg.sortinghat ==> OwnerFacts(e, dated))
      && (cfg.sortinghat ==> OwnerResolved(cfg.sh, item, e))
      && (|cfg.prjsMap| > 0 ==> "project" in e && ItemProject(cfg.prjsMap, item) == Ok(map["project" := e["project"]]))
  {
    var withIdentity := SortingHatUpdate(cfg, doc, datedItem).value;
    SortingHatUpdateFields(cfg, doc, datedItem, item, dated);
    ProjectUpdateFields(cfg, withIdentity, datedItem, item, dated);
  }

  lemma SortingHatUpdateFields(cfg: Config, doc: Dict, datedItem: Dict, item: Dict, dated: Json)
    requires SortingHatUpdate(cfg, doc, datedItem).Ok?
    requires CopyFacts(doc, item, dated) && "timeopen" in doc
    requires OwnerIdentity(datedItem) == OwnerIdentity(item)
    ensures var e := SortingHatUpdate(cfg, doc, datedItem).value;
      && CopyFacts(e, item, dated) && "timeopen" in e && e["timeopen"] == doc["timeopen"]
      && (!cfg.sortinghat ==> e == doc)
      && (cfg.sortinghat ==> OwnerResolved(cfg.sh, item, e))
  {
    if cfg.sortinghat {
      var shFields := ItemSh(cfg.sh, datedItem).value;
      ShFieldsApart();
      CopyFactsKept(doc, item, dated, shFields);
      ResolvedKept(cfg.sh, datedItem, item, shFields, doc + shFields);
    }
  }

  lemma ProjectUpdateFields(cfg: Config, doc: Dict, datedItem: Dict, item: Dict, dated: Json)
    requires ProjectUpdate(cfg, doc, datedItem).Ok?
    requires CopyFacts(doc, item, dated) && "timeopen" in doc
    requires RepositoryKey(datedItem) == RepositoryKey(item)
    ensures var e := ProjectUpdate(cfg, doc, datedItem).value;
      && CopyFacts(e, item, dated) && "timeopen" in e && e["timeopen"] == doc["timeopen"]
      && (OwnerFacts(doc, dated) ==> OwnerFacts(e, dated))
      && (OwnerResolved(cfg.sh, item, doc) ==> OwnerResolved(cfg.sh, item, e))
      && (|cfg.prjsMap| > 0 ==> "project" in e && ItemProject(cfg.prjsMap, item) == Ok(map["project" := e["project"]]))
  {
    if |cfg.prjsMap| > 0 {
      var projectFields := ItemProject(cfg.prjsMap, datedItem).value;
      ShFieldsApart();
      CopyFactsKept(doc, item, dated, projectFields);
      if OwnerFacts(doc, dated) {
        OwnerFactsKept(doc, dated, projectFields);
      }
      if OwnerResolved(cfg.sh, item, doc) {
        ResolvedByProject(cfg.sh, item, doc, projectFields);
      }
    }
  }

  /** The project update leaves the SortingHat fields alone. */
  lemma ResolvedByProject(sh: SortingHat, item: Dict, doc: Dict, projectFields: Dict)
    requires OwnerResolved(sh, item, doc)
    requires forall k :: k in projectFields ==> k == "project"
    ensures OwnerResolved(sh, item, doc + projectFields)
  {
    ShFieldsApart();
    assert forall k :: k in ShFields ==> k !in projectFields;
  }

  lemma ShFieldsApart()
    ensures "timeopen" !in ShFields && "project" !in ShFields
  {
    assert "timeopen" != "project";
  }

  /** SortingHat fields resolved for one item stay resolved in a document
      that carries them, for any item with the same owner. */
  lemma ResolvedKept(sh: SortingHat, item: Dict, other: Dict, shFields: Dict, e: Dict)
    requires OwnerResolved(sh, item, shFields) && shFields.Keys == ShFields
    requires OwnerIdentity(other) == OwnerIdentity(item)
    requires forall k :: k in shFields ==> k in e && e[k] == shFields[k]
    ensures OwnerResolved(sh, other, e)
  {
    assert "uuid" in shFields && "name" in shFields && "org_name" in shFields && "bot" in shFields && "domain" in shFields;
    assert "author_uuid" in shFields && "author_name" in shFields;
    assert "author_org_name" in shFields && "author_domain" in shFields;
  }

  /** `review_item`: the index directive whose `_id` is `%s` of the enriched
      review's `ocean-unique-id`, then the serialised enriched review. */
  function ReviewItem(cfg: Config, item: Dict): (r: Result<string>)
    ensures r.Ok? <==> ReviewEItem(cfg, item).Ok?
    ensures r.Ok? ==> var e := ReviewEItem(cfg, item).value;
      r.value == Terminated([DirectiveLine(cfg.codec.str(e["ocean-unique-id"])), cfg.codec.dumps(e)])
  {
    var eitem :- ReviewEItem(cfg, item);
    Ok(Terminated([DirectiveLine(cfg.codec.str(eitem["ocean-unique-id"])), cfg.codec.dumps(eitem)]))
  }

  /** The metadata loop of `review_item`, then `closed`. */
  method CopyMetadata(item: Dict) returns (r: Result<Dict>)
    ensures r == ReviewHead(item)
  {
    var e: Dict := map[];
    for i := 0 to |MetadataFields|
      invariant e == map k | k in MetadataFields[..i] :: Copied(item, k)
    {
      var f := MetadataFields[i];
      if f in item {
        e := e[f := item[f]];
      } else {
        e := e[f := Null];
      }
      assert MetadataFields[..i + 1] == MetadataFields[..i] + [f];
    }
    assert MetadataFields[..|MetadataFields|] == MetadataFields;
    var closed :- Field(item, "metadata__updated_on");
    r := Ok(e["closed" := closed]);
  }

  /** A copy loop of `review_item`: `eitem[target] = review[source]` pair by pair. */
  method CopyFieldsLoop(eitem: Dict, review: Json, pairs: seq<(string, string)>) returns (r: Result<Dict>)
    ensures r == CopyFields(eitem, review, pairs)
  {
    var e := eitem;
    var i := 0;
    while i < |pairs|
      invariant 0 <= i <= |pairs|
      invariant CopyFields(e, review, pairs[i..]) == CopyFields(eitem, review, pairs)
    {
      assert pairs[i..][0] == pairs[i] && pairs[i..][1..] == pairs[i + 1..];
      var value :- Get(review, pairs[i].0);
      e := e[pairs[i].1 := value];
      i := i + 1;
    }
    r := Ok(e);
  }

  /** `review_item` up to `timeopen`, step by step: the metadata, the date
      fix of `item['data']`, the two copy loops, `summary_analyzed`, the
      owner's name and domain, `patchsets` and `timeopen`. */
  method BuildReviewDoc(cfg: Config, item: Dict) returns (r: Result<(Dict, Dict)>)
    ensures r == ReviewDoc(cfg, item)
  {
    var head :- CopyMetadata(item);
    var review :- Field(item, "data");
    var dated :- FixReviewDates(cfg.localDate, review);
    var copied := CopyFieldsLoop(head, dated, DataCopies);
    if copied.Err? {
      assert ReviewCopies(head, dated) == Err(copied.error);
      return Err(copied.error);
    }
    var full := CopyFieldsLoop(copied.value, dated, Renames);
    assert ReviewCopies(head, dated) == full;
    if full.Err? {
      return Err(full.error);
    }
    var eitem := full.value;
    var owner :- OwnerNameDomain(dated);
    var patches :- Get(dated, "patchSets");
    var count :- Len(patches);
    eitem := eitem + map["summary_analyzed" := eitem["summary"], "name" := owner.0, "domain" := owner.1,
                         "patchsets" := Int(count)];
    var timeopen :- TimeOpen(cfg, dated);
    eitem := eitem + map["timeopen" := timeopen];
    r := Ok((eitem, item["data" := dated]));
  }

  /** `review_item`, step by step: the review document, the SortingHat and
      project updates on the date-rewritten item, then the bulk text. */
  method EnrichReview(cfg: Config, item: Dict) returns (r: Result<string>)
    ensures r == ReviewItem(cfg, item)
  {
    var doc :- BuildReviewDoc(cfg, item);
    var eitem := doc.0;
    if cfg.sortinghat {
      var shFields :- ItemSh(cfg.sh, doc.1);
      eitem := eitem + shFields;
    }
    if |cfg.prjsMap| > 0 {
      var projectFields :- ItemProject(cfg.prjsMap, doc.1);
      eitem := eitem + projectFields;
    }
    assert Ok(eitem) == ReviewEItem(cfg, item);
    r := Ok(Terminated([DirectiveLine(cfg.codec.str(eitem["ocean-unique-id"])), cfg.codec.dumps(eitem)]));
  }

  // ----- enrich_items -----

  /** What `enrich_items` appends to its buffer for one review: the bulk
      text of `review_item` and one more newline, so the document line is
      followed by an empty line. */
  function ReviewText(cfg: Config, item: Dict): (r: Result<string>)
    ensures r.Ok? <==> ReviewEItem(cfg, item).Ok?
    ensures r.Ok? ==> var e := ReviewEItem(cfg, item).value;
      r.value == Terminated([DirectiveLine(cfg.codec.str(e["ocean-unique-id"])), cfg.codec.dumps(e), ""])
  {
    var text :- ReviewItem(cfg, item);
    var e := ReviewEItem(cfg, item).value;
    TwoLinesThenEmpty(DirectiveLine(cfg.codec.str(e["ocean-unique-id"])), cfg.codec.dumps(e));
    Ok(text + "\n")
  }

  lemma TwoLinesThenEmpty(a: string, b: string)
    ensures Terminated([a, b]) + "\n" == Terminated([a, b, ""])
  {
    assert [a, b][1..] == [b] && [b][1..] == [];
    assert [a, b, ""][1..] == [b, ""] && [b, ""][1..] == [""] && [""][1..] == [];
    assert Terminated([""]) == "\n";
    assert Terminated([b, ""]) == b + "\n" + "\n";
    assert Terminated([b]) == b + "\n";
    assert a + "\n" + (b + "\n") + "\n" == a + "\n" + (b + "\n" + "\n");
  }

  function ReviewTexts(cfg: Config, items: seq<Dict>): (ts: seq<Result<string>>)
    ensures |ts| == |items| && forall i :: 0 <= i < |items| ==> ts[i] == ReviewText(cfg, items[i])
  {
    seq(|items|, i requires 0 <= i < |items| => ReviewText(cfg, items[i]))
  }

  /** The retry handler's log message `"..." + review['id']`, where
      `review` is the loop variable of `enrich_items`: a missing `id` raises
      `KeyError` and one that is not a string raises `TypeError`. */
  function LogReviewId(review: Dict): (r: Result<()>)
    ensures r.Ok? <==> "id" in review && review["id"].Str?
    ensures "id" !in review ==> r == Err(KeyError)
    ensures "id" in review && !review["id"].Str? ==> r == Err(TypeError)
  {
    var id :- Field(review, "id");
    var text :- AsStr(id);
    Ok(())
  }

  function ItemsUrl(elastic: Elastic): string
    reads elastic
  {
    elastic.indexUrl + "/" + "items" + "/_bulk"
  }

  /** `enrich_items`: the store receives exactly the bodies of `Run` under
      the ASCII retry whose log message reads the loop variable's `id`, at
      the items bulk URL, and the loop ends as `Run` does. */
  method EnrichItems(cfg: Config, elastic: Elastic, items: seq<Dict>) returns (outcome: Outcome)
    modifies elastic
    ensures var t := Run(items, ReviewTexts(cfg, items), RetryAscii(LogReviewId), elastic.maxItemsBulk, [], None);
      outcome == t.outcome && elastic.requests == old(elastic.requests) + Requests(ItemsUrl(elastic), t.sent)
  {
    var url := elastic.indexUrl + "/" + "items" + "/_bulk";
    var render := item => ReviewText(cfg, item);
    outcome := BulkLoop(elastic, url, RetryAscii(LogReviewId), items, render);
    assert Rendered(render, items) == ReviewTexts(cfg, items);
  }

  /** The bulk texts of reviews that all enrich. */
  function ReviewLines(cfg: Config, items: seq<Dict>): (lines: seq<string>)
    requires forall i :: 0 <= i < |items| ==> ReviewText(cfg, items[i]).Ok?
    ensures |lines| == |items| && forall i :: 0 <= i < |items| ==> ReviewText(cfg, items[i]) == Ok(lines[i])
  {
    seq(|items|, i requires 0 <= i < |items| => ReviewText(cfg, items[i]).value)
  }

  /** When every review enriches, and either every review text is ASCII (no
      put raises, so the retry handler never reads `review['id']`) or the
      handler's log message evaluates for every review, `enrich_items` sends
      exactly the batches of `Flushes` over the review texts, in order, each
      with its non-ASCII characters dropped, and completes. */
  lemma ReviewsDelivered(cfg: Config, items: seq<Dict>, k: int)
    requires forall i :: 0 <= i < |items| ==> ReviewText(cfg, items[i]).Ok?
    requires || (forall i :: 0 <= i < |items| ==> IsAscii(ReviewText(cfg, items[i]).value))
             || (forall i :: 0 <= i < |items| ==> LogReviewId(items[i]).Ok?)
    ensures Run(items, ReviewTexts(cfg, items), RetryAscii(LogReviewId), k, [], None)
         == Trace(Bodies(Flushes(ReviewLines(cfg, items), k, []), true), Completed)
  {
    var lines := ReviewLines(cfg, items);
    assert Produced(ReviewTexts(cfg, items), lines);
    if forall i :: 0 <= i < |items| ==> IsAscii(ReviewText(cfg, items[i]).value) {
      assert AllAscii(lines);
    } else {
      assert AllLogged(RetryAscii(LogReviewId), items);
    }
    RunSendsFlushes(items, ReviewTexts(cfg, items), lines, RetryAscii(LogReviewId), k, [], None);
  }

  /** A bulk body made of the texts of consecutive reviews (every batch
      `enrich_items` sends is one) splits at its newlines into, for each
      review in order, its index directive line, its document line and an
      empty line, provided no `%s` of an `ocean-unique-id` and no
      serialised document holds a newline. */
  lemma ReviewBatchLines(cfg: Config, batch: seq<Dict>)
    requires forall i :: 0 <= i < |batch| ==>
      && ReviewEItem(cfg, batch[i]).Ok?
      && '\n' !in cfg.codec.str(ReviewEItem(cfg, batch[i]).value["ocean-unique-id"])
      && '\n' !in cfg.codec.dumps(ReviewEItem(cfg, batch[i]).value)
    ensures var ls := Split(Concat(ReviewLines(cfg, batch)), '\n');
      && |ls| == 3 * |batch| + 1 && ls[3 * |batch|] == ""
      && forall i :: 0 <= i < |batch| ==>
           && ls[3 * i] == DirectiveLine(cfg.codec.str(ReviewEItem(cfg, batch[i]).value["ocean-unique-id"]))
           && ls[3 * i + 1] == cfg.codec.dumps(ReviewEItem(cfg, batch[i]).value)
           && ls[3 * i + 2] == ""
  {
    var heads := seq(|batch|, i requires 0 <= i < |batch| =>
      DirectiveLine(cfg.codec.str(ReviewEItem(cfg, batch[i]).value["ocean-unique-id"])));
    var bodies := seq(|batch|, i requires 0 <= i < |batch| => cfg.codec.dumps(ReviewEItem(cfg, batch[i]).value));
    forall i | 0 <= i < |batch| ensures '\n' !in heads[i] {
      DirectiveNoNewline(cfg.codec.str(ReviewEItem(cfg, batch[i]).value["ocean-unique-id"]));
    }
    SplitTriples(ReviewLines(cfg, batch), heads, bodies);
  }
}
