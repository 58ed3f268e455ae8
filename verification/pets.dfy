/** The `usePets` hook: the signed-in user's pet list kept in local state and
    updated after each backend mutation, so that the screen shows the change
    without fetching the list again. */
module Pets {
  import opened Wrappers
  import opened Seqs
  import opened Records

  /** Why a mutation returned `{ error }`. */
  datatype Failure =
    | NotAuthenticated   // `'User not authenticated'`
    | NoDataReturned     // `'No data returned from insert'` / `'... from update'`
    | BackendError       // the backend's error, or an exception it threw

  /** The object a mutation resolves to: `{ data }` or `{ error }`
      (`{ success: true }` for a delete is `Done(())`). */
  datatype Reply<+T> = Done(data: T) | Failed(failure: Failure)

  /** The row sent by `addPet`: the form's columns plus `user_id`. */
  datatype PetInsert = PetInsert(data: NewPet, userId: string)

  /** What one call of `addPet` did: the list afterwards, the reply, and the
      row sent to the backend if one was sent. */
  datatype AddCall = AddCall(pets: seq<Pet>, reply: Reply<Pet>, sent: Option<PetInsert>)

  /** `fetchPets`: with no user nothing is requested; otherwise the reply
      refreshes the list. */
  function FetchPets(userId: Option<string>, pets: seq<Pet>, select: Outcome<Option<seq<Pet>>>): (r: seq<Pet>)
    ensures !Truthy(userId) || select.Err? ==> r == pets
    ensures Truthy(userId) && select.Ok? ==> r == select.value.GetOr([])
  {
    if !Truthy(userId) then pets else Refresh(pets, select)
  }

  /** `addPet`. `insert` is the backend's answer: the inserted rows, or an error. */
  function AddPet(userId: Option<string>, pets: seq<Pet>, data: NewPet, insert: Outcome<seq<Pet>>): (r: AddCall)
    ensures !Truthy(userId) <==> r.reply == Failed(NotAuthenticated)
    ensures !Truthy(userId) ==> r.sent.None?
    ensures Truthy(userId) ==> r.sent == Some(PetInsert(data, userId.value))
    ensures r.reply.Done? <==> Truthy(userId) && insert.Ok? && insert.value != []
    ensures r.reply.Done? ==> r.reply.data == insert.value[0] && r.pets == [insert.value[0]] + pets
    ensures r.reply.Failed? ==> r.pets == pets
  {
    if !Truthy(userId) then AddCall(pets, Failed(NotAuthenticated), None)
    else
      var sent := Some(PetInsert(data, userId.value));
      match insert
      case Err => AddCall(pets, Failed(BackendError), sent)
      case Ok(rows) =>
        if |rows| == 0 then AddCall(pets, Failed(NoDataReturned), sent)
        else AddCall([rows[0]] + pets, Done(rows[0]), sent)
  }

  /** `prev.map(pet => pet.id === petId ? updatedPet : pet)`. */
  function ReplaceById(pets: seq<Pet>, petId: string, updated: Pet): (r: seq<Pet>)
    ensures |r| == |pets|
    ensures forall i | 0 <= i < |pets| :: r[i] == (if pets[i].id == petId then updated else pets[i])
  {
    seq(|pets|, i requires 0 <= i < |pets| => if pets[i].id == petId then updated else pets[i])
  }

  /** `updatePet`. The reply and the list afterwards. */
  function UpdatePet(pets: seq<Pet>, petId: string, update: Outcome<seq<Pet>>): (r: (seq<Pet>, Reply<Pet>))
    ensures r.1.Done? <==> update.Ok? && update.value != []
    ensures r.1.Done? ==> r.1.data == update.value[0] && r.0 == ReplaceById(pets, petId, update.value[0])
    ensures r.1.Failed? ==> r.0 == pets && r.1.failure != NotAuthenticated
  {
    match update
    case Err => (pets, Failed(BackendError))
    case Ok(rows) =>
      if |rows| == 0 then (pets, Failed(NoDataReturned))
      else (ReplaceById(pets, petId, rows[0]), Done(rows[0]))
  }

  /** `prev.filter(pet => pet.id !== petId)`. */
  function RemoveById(pets: seq<Pet>, petId: string): (r: seq<Pet>)
    ensures forall p | p in r :: p in pets && p.id != petId
    ensures forall p | p in pets && p.id != petId :: p in r
  {
    Filter((p: Pet) => p.id != petId, pets)
  }

  /** `deletePet`. The reply and the list afterwards. */
  function DeletePet(pets: seq<Pet>, petId: string, delete: Outcome<()>): (r: (seq<Pet>, Reply<()>))
    ensures r.1.Done? <==> delete.Ok?
    ensures r.1.Done? ==> r.0 == RemoveById(pets, petId)
    ensures r.1.Done? ==> forall p | p in r.0 :: p.id != petId
    ensures r.1.Done? ==> forall p | p in pets && p.id != petId :: p in r.0
    ensures r.1.Failed? ==> r.0 == pets && r.1.failure == BackendError
  {
    match delete
    case Err => (pets, Failed(BackendError))
    case Ok(_) => (RemoveById(pets, petId), Done(()))
  }

  // ---------------------------------------------------------------- lemmas

  /** Updating an id that is not in the list changes nothing, even on success. */
  lemma ReplaceAbsentId(pets: seq<Pet>, petId: string, updated: Pet)
    requires forall p | p in pets :: p.id != petId
    ensures ReplaceById(pets, petId, updated) == pets
  {
  }

  /** Applying the same successful update twice has the effect of applying it
      once, provided the returned row keeps its id. */
  lemma ReplaceIdempotent(pets: seq<Pet>, petId: string, updated: Pet)
    requires updated.id == petId
    ensures ReplaceById(ReplaceById(pets, petId, updated), petId, updated) == ReplaceById(pets, petId, updated)
  {
  }

  /** Deleting keeps the remaining pets in their relative order and never
      lengthens the list. */
  lemma DeleteKeepsOrder(pets: seq<Pet>, petId: string)
    ensures IsSubseq(RemoveById(pets, petId), pets)
    ensures |RemoveById(pets, petId)| <= |pets|
  {
    FilterIsSubseq((p: Pet) => p.id != petId, pets);
  }

  /** Deleting an id that is not in the list leaves the list as it is. */
  lemma DeleteAbsentId(pets: seq<Pet>, petId: string)
    requires forall p | p in pets :: p.id != petId
    ensures RemoveById(pets, petId) == pets
  {
    FilterAll((p: Pet) => p.id != petId, pets);
  }

  /** A pet added and then deleted under its own id is gone, and every pet of
      the original list with another id is still there. */
  lemma AddThenDelete(userId: Option<string>, pets: seq<Pet>, data: NewPet, rows: seq<Pet>)
    requires Truthy(userId) && rows != []
    ensures var added := AddPet(userId, pets, data, Ok(rows)).pets;
      var after := DeletePet(added, rows[0].id, Ok(())).0;
      && rows[0] !in after
      && (forall p | p in pets && p.id != rows[0].id :: p in after)
      && |after| <= |pets| + 1
  {
  }
}
