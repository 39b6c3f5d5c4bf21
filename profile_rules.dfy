/** What PUT /profile stores: the submitted fields merged over the stored
    profile, with the role and id protected. */
module ProfileRules {

  /** `delete updates.role; delete updates.id; { ...profile, ...updates, updatedAt }`. */
  function MergedProfile(current: map<string, string>, updates: map<string, string>, stamp: string): (r: map<string, string>)
    ensures ("role" in r <==> "role" in current) && ("role" in r ==> r["role"] == current["role"])
    ensures ("id" in r <==> "id" in current) && ("id" in r ==> r["id"] == current["id"])
    ensures "updatedAt" in r && r["updatedAt"] == stamp
    ensures forall k :: k in updates && k != "role" && k != "id" && k != "updatedAt" ==> k in r && r[k] == updates[k]
    ensures forall k :: k in current && k !in updates && k != "updatedAt" ==> k in r && r[k] == current[k]
    ensures forall k :: k in r ==> k in current || k in updates || k == "updatedAt"
  {
    (current + (updates - {"role", "id"}))["updatedAt" := stamp]
  }
}
