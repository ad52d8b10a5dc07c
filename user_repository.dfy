/** Looking up users: by e-mail, their discount group, and the customer an
    admin acts for. */
module UserRepository {
  import opened Wrappers
  import opened Models
  import opened Repository

  /** `get_by_item(email=...)` on the users table: e-mails are not unique, so
      this is the first user, in storage order, with that e-mail. */
  function UserByEmail(users: seq<User>, email: string): (r: Option<User>)
    ensures r.Some? ==> r.value in users && r.value.email == email
    ensures r.None? <==> forall u :: u in users ==> u.email != email
    ensures r.Some? ==> exists i :: 0 <= i < |users| && users[i] == r.value && users[i].email == email &&
                                    forall j :: 0 <= j < i ==> users[j].email != email
  {
    FirstMatch(users, (u: User) => u.email == email)
  }

  /** `get_user_group`: the group of the user with that id, through the join of
      users with groups on `group_id`; None when there is no such user, the user
      has no group, or the group row is missing. */
  function UserGroup(users: seq<User>, groups: seq<Group>, userId: Id): (r: Option<Group>)
    ensures r.Some? ==> r.value in groups &&
                        exists u :: u in users && u.id == userId && u.groupId == Some(r.value.id)
    ensures UniqueKeys(users, UserKey) ==>
              forall u :: (u in users && u.id == userId && u.groupId.Some? &&
                           exists g :: g in groups && g.id == u.groupId.value) ==> r.Some?
  {
    match FirstMatch(users, (u: User) => u.id == userId)
    case None => None
    case Some(u) =>
      match u.groupId
      case None => None
      case Some(gid) => FirstMatch(groups, (g: Group) => g.id == gid)
  }

  /** Whether a `customer_email` counts as given: Python tests it for
      truthiness, so None and the empty string do not. */
  predicate EmailGiven(email: Option<string>) {
    email.Some? && email.value != ""
  }

  /** The customer a request acts for, and whether an admin placed it: an admin
      who names a customer e-mail acts for the first user with that e-mail
      (None when there is none); everybody else acts for themselves. */
  function ResolveCustomer(users: seq<User>, actor: User, email: Option<string>): (c: (Option<User>, bool))
    ensures c.1 <==> actor.isAdmin && EmailGiven(email)
    ensures c.1 ==> c.0 == UserByEmail(users, email.value)
    ensures !c.1 ==> c.0 == Some(actor)
  {
    if actor.isAdmin && EmailGiven(email) then (UserByEmail(users, email.value), true)
    else (Some(actor), false)
  }
}
