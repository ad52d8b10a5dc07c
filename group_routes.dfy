/** The discount-group endpoints.  The group name is not unique in the
    database: only `create_group`'s own lookup keeps names apart. */
module GroupRoutes {
  import opened Wrappers
  import opened Models
  import opened Repository
  import opened Tables

  const GroupExists: string := "This group is already exist. Please create a new one!"
  const GroupDeleted: string := "Delete group successfully!"

  /** No two groups share a name. */
  predicate DistinctNames(groups: seq<Group>) {
    forall i, j :: 0 <= i < j < |groups| ==> groups[i].name != groups[j].name
  }

  /** Appending a group whose name is not yet taken keeps the names distinct. */
  lemma AddingUnusedNameKeepsNamesDistinct(groups: seq<Group>, g: Group)
    requires DistinctNames(groups) && forall x :: x in groups ==> x.name != g.name
    ensures DistinctNames(groups + [g])
  {
    var all := groups + [g];
    forall i, j | 0 <= i < j < |all| ensures all[i].name != all[j].name {
      assert all[i] == groups[i];
      if j == |groups| {
        assert all[i] in groups;
      } else {
        assert all[j] == groups[j];
      }
    }
  }

  /** `create_group`: refuse a name some group already has, else insert. */
  method CreateGroup(groups: Table<Id, Group>, data: GroupBase, newId: Id, now: Time)
    returns (r: Result<Group>)
    requires GroupTable(groups)
    modifies groups
    ensures GroupTable(groups)
    ensures (exists g :: g in old(groups.rows) && g.name == data.name) ==>
              r == Err(HttpError(400, GroupExists)) && groups.rows == old(groups.rows)
    ensures (forall g :: g in old(groups.rows) ==> g.name != data.name) && HasKey(old(groups.rows), GroupKey, newId) ==>
              r == Err(HttpError(400, CreateFailed)) && groups.rows == old(groups.rows)
    ensures (forall g :: g in old(groups.rows) ==> g.name != data.name) && !HasKey(old(groups.rows), GroupKey, newId) ==>
              var g := Group(newId, now, data.name, data.discountPercent);
              r == Ok(g) && groups.rows == old(groups.rows) + [g]
    ensures DistinctNames(old(groups.rows)) ==> DistinctNames(groups.rows)
  {
    var existing := groups.GetByItem((g: Group) => g.name == data.name);
    if existing.Some? {
      return Err(HttpError(400, GroupExists));
    }
    var g := Group(newId, now, data.name, data.discountPercent);
    if DistinctNames(groups.rows) {
      AddingUnusedNameKeepsNamesDistinct(groups.rows, g);
    }
    r := groups.Create(g);
  }

  /** `get_group`: the group, or `get_by_id`'s 404. */
  function GetGroup(groups: Table<Id, Group>, groupId: Id): (r: Result<Group>)
    reads groups
    requires GroupTable(groups)
    ensures r.Ok? <==> HasKey(groups.rows, GroupKey, groupId)
    ensures r.Ok? ==> r.value in groups.rows && r.value.id == groupId
    ensures r.Err? ==> r.error == HttpError(404, NoRecord(groupId))
  {
    groups.GetById(groupId)
  }

  /** `dict(data)` of an `UpdateGroup`, in field order. */
  function GroupKwargs(data: UpdateGroup): Kwargs {
    [("name", OptionalText(data.name)), ("discount_percent", OptionalReal(data.discountPercent))]
  }

  /** A group patched with the fields of `data` that are given and truthy. */
  function PatchGroup(g: Group, data: UpdateGroup): Group {
    Group(
      g.id, g.createdAt,
      if data.name.Some? && data.name.value != "" then data.name.value else g.name,
      if data.discountPercent.Some? && data.discountPercent.value != 0.0 then data.discountPercent.value
      else g.discountPercent)
  }

  /** `update` with `dict(data)` patches exactly the given, truthy fields. */
  lemma GroupUpdateIsPatch(g: Group, data: UpdateGroup)
    ensures ApplyKwargs(g, GroupKwargs(data), SetGroupAttr) == PatchGroup(g, data)
  {
    var kw := GroupKwargs(data);
    assert "discount_percent" != "name";
    var g1 := Assign(g, kw[0], SetGroupAttr);
    var g2 := Assign(g1, kw[1], SetGroupAttr);
    assert g2 == PatchGroup(g, data);
    assert kw[1..][1..] == [];
    assert ApplyKwargs(g1, kw[1..], SetGroupAttr) == ApplyKwargs(g2, [], SetGroupAttr);
  }

  /** A discount of 0 is falsy, so `update_group` cannot remove a group's discount. */
  lemma ZeroDiscountIsIgnored(g: Group, data: UpdateGroup)
    requires data.discountPercent == Some(0.0)
    ensures ApplyKwargs(g, GroupKwargs(data), SetGroupAttr).discountPercent == g.discountPercent
  {
    GroupUpdateIsPatch(g, data);
  }

  /** `update_group`: `get_by_id` (404 when missing), then `update` with every
      field of the request. */
  method UpdateGroupById(groups: Table<Id, Group>, groupId: Id, data: UpdateGroup)
    returns (r: Result<Group>)
    requires GroupTable(groups)
    modifies groups
    ensures GroupTable(groups)
    ensures !HasKey(old(groups.rows), GroupKey, groupId) ==>
              r == Err(HttpError(404, NoRecord(groupId))) && groups.rows == old(groups.rows)
    ensures HasKey(old(groups.rows), GroupKey, groupId) ==>
              var i := IndexOfKey(old(groups.rows), GroupKey, groupId).value;
              var g := PatchGroup(old(groups.rows)[i], data);
              r == Ok(g) && groups.rows == old(groups.rows)[i := g]
  {
    var found := groups.GetById(groupId);
    if found.Err? {
      return Err(found.error);
    }
    GroupUpdateIsPatch(found.value, data);
    var i := IndexOfKey(groups.rows, GroupKey, groupId).value;
    assert found.value == groups.rows[i] by {
      var j :| 0 <= j < |groups.rows| && groups.rows[j] == found.value;
      KeyedRowIsUnique(groups.rows, GroupKey, groupId, j);
    }
    var g := groups.Update(groupId, GroupKwargs(data));
    r := Ok(g);
  }

  /** `delete_group`: `get_by_id` (404 when missing), then `delete`.  Users
      that still name the group are not a database constraint, so the delete
      always commits. */
  method DeleteGroup(groups: Table<Id, Group>, groupId: Id) returns (r: Result<string>)
    requires GroupTable(groups)
    modifies groups
    ensures GroupTable(groups)
    ensures !HasKey(old(groups.rows), GroupKey, groupId) ==>
              r == Err(HttpError(404, NoRecord(groupId))) && groups.rows == old(groups.rows)
    ensures HasKey(old(groups.rows), GroupKey, groupId) ==>
              r == Ok(GroupDeleted) && |groups.rows| == |old(groups.rows)| - 1 &&
              forall g :: g in groups.rows <==> g in old(groups.rows) && g.id != groupId
  {
    var found := groups.GetById(groupId);
    if found.Err? {
      return Err(found.error);
    }
    RemoveKeyedRow(groups.rows, GroupKey, groupId, IndexOfKey(groups.rows, GroupKey, groupId).value);
    var _ := groups.Delete(groupId, false);
    r := Ok(GroupDeleted);
  }
}
