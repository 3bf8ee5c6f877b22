/** The collaborators that both connectors inherit from their common `Enrich`
    base class: the SortingHat identity service, which is only called, and
    the static projects map. */
module Enrich {
  import opened PyJson

  /** The keys of a SortingHat identity. */
  const IdentityFields: set<string> := {"name", "email", "username"}

  /** The identity both connectors start from: every key None. */
  function EmptyIdentity(): (id: Dict)
    ensures id.Keys == IdentityFields
    ensures forall k :: k in id ==> id[k] == Null
  {
    map["name" := Null, "email" := Null, "username" := Null]
  }

  /** The loop both `get_sh_identity`s start with: each of name, email and
      username set to None, one after the other. */
  method NoneIdentity() returns (id: Dict)
    ensures id == EmptyIdentity()
  {
    var fields := ["name", "email", "username"];
    id := map[];
    var i := 0;
    while i < |fields|
      invariant 0 <= i <= |fields|
      invariant id.Keys <= IdentityFields
      invariant ("name" in id <==> i > 0) && ("email" in id <==> i > 1) && ("username" in id <==> i > 2)
      invariant forall k :: k in id ==> id[k] == Null
    {
      id := id[fields[i] := Null];
      i := i + 1;
    }
  }

  /** One enrollment of a unique identity; only its organisation's name is read. */
  datatype Enrollment = Enrollment(organizationName: Json)

  /** A SortingHat unique identity; only whether it has a profile is read. */
  datatype UniqueIdentity = UniqueIdentity(profile: Option<bool>)

  /** The SortingHat lookups, as uninterpreted functions: `get_uuid`,
      `get_enrollments` and `get_unique_identities`, and the connector name
      passed to `get_uuid`. */
  datatype SortingHat = SortingHat(
    connector: string,
    uuid: (Dict, string) -> Json,
    enrollments: Json -> seq<Enrollment>,
    uniqueIdentities: Json -> seq<UniqueIdentity>)

  /** The organisation of the first enrollment, or None when there is none:
      the connectors take `enrollments[0]`, not the enrollment valid at the
      item's date. */
  function FirstOrgName(es: seq<Enrollment>): Json {
    if |es| > 0 then es[0].organizationName else Null
  }

  /** `prjs_map`: data source name to repository key to project. A `None`
      map and an empty one are both falsy and are both the empty map here. */
  type ProjectsMap = map<string, map<string, Json>>

  /** `prjs_map[ds][repo]` with the `KeyError` branch returning None. */
  function LookupProject(pm: ProjectsMap, ds: string, repo: string): Json {
    if ds in pm && repo in pm[ds] then pm[ds][repo] else Null
  }
}
