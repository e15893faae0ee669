/** The stored user list (`nst_users`): lookup by id and the keyed
    replacement `storedUsers[idx] = updatedUser` that every handler performs. */
module UserSet {
  import opened Records
  import opened Search

  /** `storedUsers.findIndex(u => u.id === id)`. */
  function IndexOf(users: seq<User>, id: string): (r: Option<nat>)
    ensures r.Some? ==> r.value < |users| && users[r.value].id == id
    ensures r.Some? ==> forall j :: 0 <= j < r.value ==> users[j].id != id
    ensures r.None? <==> forall j :: 0 <= j < |users| ==> users[j].id != id
  {
    FindFirst(users, (u: User) => u.id == id)
  }

  /** The stored list after replacing the first element whose id is `id`
      by `updated`; the list is returned as it was when no id matches. */
  function ReplaceById(users: seq<User>, id: string, updated: User): (r: seq<User>)
    ensures |r| == |users|
    ensures IndexOf(users, id).None? ==> r == users
    ensures IndexOf(users, id).Some? ==>
      r[IndexOf(users, id).value] == updated &&
      forall j :: 0 <= j < |users| && j != IndexOf(users, id).value ==> r[j] == users[j]
  {
    match IndexOf(users, id)
    case None => users
    case Some(i) => users[i := updated]
  }

  /** Replacing a record by one with the same id leaves it findable at the
      same position, holding the new record. */
  lemma ReplaceKeepsPosition(users: seq<User>, updated: User)
    ensures IndexOf(ReplaceById(users, updated.id, updated), updated.id) == IndexOf(users, updated.id)
  {
  }

  /** Writing the same record twice is the same as writing it once. */
  lemma ReplaceIdempotent(users: seq<User>, updated: User)
    ensures ReplaceById(ReplaceById(users, updated.id, updated), updated.id, updated)
         == ReplaceById(users, updated.id, updated)
  {
  }

  /** Records of other users are never touched. */
  lemma ReplaceSparesOthers(users: seq<User>, updated: User, j: nat)
    requires j < |users| && users[j].id != updated.id
    ensures ReplaceById(users, updated.id, updated)[j] == users[j]
  {
  }
}
