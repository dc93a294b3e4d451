/**
 * The user table and its credit ledger, keyed by the identity provider's subject id (clerkId):
 * lookup, creation, decrement-if-sufficient and unconditional increment of the balance.
 */
module Users {
  import opened Wrappers

  /** A user row: the store-assigned id, the identity subject, the email and the credit balance. */
  datatype User = User(id: string, clerkId: string, email: string, credits: int)

  const INSUFFICIENT_CREDITS: string := "INSUFFICIENT_CREDITS"
  const RECORD_NOT_FOUND: string := "Record to update not found."
  const DUPLICATE_CLERK_ID: string := "Unique constraint failed on the fields: (`clerkId`)"

  /** Every row is stored under its own clerkId. */
  ghost predicate WellKeyed(users: map<string, User>) {
    forall k :: k in users ==> users[k].clerkId == k
  }

  /** `getUserByClerkId`. */
  function Lookup(users: map<string, User>, clerkId: string): (r: Option<User>)
    ensures r.Some? <==> clerkId in users
    ensures r.Some? ==> r.value == users[clerkId]
    ensures r.Some? && WellKeyed(users) ==> r.value.clerkId == clerkId
  {
    if clerkId in users then Some(users[clerkId]) else None
  }

  /** `getUserCredits`: the stored balance, or 0 for an unknown clerkId. */
  function Balance(users: map<string, User>, clerkId: string): (credits: int)
    ensures clerkId in users ==> credits == users[clerkId].credits
    ensures clerkId !in users ==> credits == 0
  {
    Lookup(users, clerkId).GetOr(User("", clerkId, "", 0)).credits
  }

  /**
   * The table after `deductCredits(clerkId, amount)`, or None when it throws
   * INSUFFICIENT_CREDITS (unknown user or balance below amount).
   */
  function Debit(users: map<string, User>, clerkId: string, amount: int): (r: Option<map<string, User>>)
    ensures r.Some? <==> clerkId in users && users[clerkId].credits >= amount
    ensures r.Some? ==> r.value.Keys == users.Keys
    ensures r.Some? ==> Balance(r.value, clerkId) == Balance(users, clerkId) - amount
    ensures r.Some? ==> forall k :: k in users && k != clerkId ==> r.value[k] == users[k]
    ensures r.Some? ==> r.value[clerkId] == users[clerkId].(credits := users[clerkId].credits - amount)
  {
    match Lookup(users, clerkId)
    case None => None
    case Some(user) =>
      if user.credits < amount then None
      else Some(users[clerkId := user.(credits := user.credits - amount)])
  }

  /** The table after `addCredits(clerkId, amount)`, or None when no row has that clerkId. */
  function Credit(users: map<string, User>, clerkId: string, amount: int): (r: Option<map<string, User>>)
    ensures r.Some? <==> clerkId in users
    ensures r.Some? ==> r.value.Keys == users.Keys
    ensures r.Some? ==> Balance(r.value, clerkId) == Balance(users, clerkId) + amount
    ensures r.Some? ==> forall k :: k in users && k != clerkId ==> r.value[k] == users[k]
    ensures r.Some? ==> r.value[clerkId] == users[clerkId].(credits := users[clerkId].credits + amount)
  {
    match Lookup(users, clerkId)
    case None => None
    case Some(user) => Some(users[clerkId := user.(credits := user.credits + amount)])
  }

  /** A successful deduction followed by adding the same amount restores the table. */
  lemma DebitThenCreditRestores(users: map<string, User>, clerkId: string, amount: int)
    requires Debit(users, clerkId, amount).Some?
    ensures Credit(Debit(users, clerkId, amount).value, clerkId, amount) == Some(users)
  {
    var after := Credit(Debit(users, clerkId, amount).value, clerkId, amount).value;
    assert after.Keys == users.Keys;
    assert forall k :: k in users ==> after[k] == users[k];
    assert after == users;
  }

  /** A deduction of a non-negative amount keeps every balance non-negative. */
  lemma DebitKeepsBalancesNonNegative(users: map<string, User>, clerkId: string, amount: int)
    requires forall k :: k in users ==> users[k].credits >= 0
    requires amount >= 0 && Debit(users, clerkId, amount).Some?
    ensures var after := Debit(users, clerkId, amount).value;
      forall k :: k in after ==> after[k].credits >= 0
  {
  }

  /** The table after `createUser`, or None when the clerkId is already taken. */
  function Insert(users: map<string, User>, id: string, clerkId: string, email: string, credits: int)
    : (r: Option<map<string, User>>)
    ensures r.Some? <==> clerkId !in users
    ensures r.Some? ==> Lookup(r.value, clerkId) == Some(User(id, clerkId, email, credits))
    ensures r.Some? ==> forall k :: k in users ==> k in r.value && r.value[k] == users[k]
    ensures r.Some? ==> r.value.Keys == users.Keys + {clerkId}
    ensures r.Some? && WellKeyed(users) ==> WellKeyed(r.value)
  {
    if clerkId in users then None else Some(users[clerkId := User(id, clerkId, email, credits)])
  }

  /** The user table. */
  class UserTable {
    /** Balance the database gives a newly created row. */
    const initialCredits: int
    var users: map<string, User>

    ghost predicate Valid()
      reads this
    {
      WellKeyed(users)
    }

    constructor(initialCredits: int)
      ensures Valid() && this.initialCredits == initialCredits && users == map[]
    {
      this.initialCredits := initialCredits;
      users := map[];
    }

    /** `createUser`: inserts a row with the given ids and email and the initial balance. */
    method CreateUser(id: string, clerkId: string, email: string) returns (r: Result<User, string>)
      requires Valid()
      modifies this
      ensures Valid()
      ensures clerkId in old(users) ==> r == Err(DUPLICATE_CLERK_ID) && users == old(users)
      ensures clerkId !in old(users) ==>
        && r == Ok(User(id, clerkId, email, initialCredits))
        && users == Insert(old(users), id, clerkId, email, initialCredits).value
    {
      var inserted := Insert(users, id, clerkId, email, initialCredits);
      if inserted.None? {
        return Err(DUPLICATE_CLERK_ID);
      }
      users := inserted.value;
      r := Ok(User(id, clerkId, email, initialCredits));
    }

    /** `deductCredits`: reads the balance, then decrements it when it covers `amount`. */
    method DeductCredits(clerkId: string, amount: int) returns (r: Outcome<string>)
      requires Valid()
      modifies this
      ensures Valid()
      ensures r.Pass? <==> Debit(old(users), clerkId, amount).Some?
      ensures r.Fail? ==> r.error == INSUFFICIENT_CREDITS && users == old(users)
      ensures r.Pass? ==> users == Debit(old(users), clerkId, amount).value
    {
      var user := Lookup(users, clerkId);
      if user.None? || user.value.credits < amount {
        return Fail(INSUFFICIENT_CREDITS);
      }
      users := users[clerkId := user.value.(credits := user.value.credits - amount)];
      r := Pass;
    }

    /** `addCredits`: increments the balance; the update fails when no row has that clerkId. */
    method AddCredits(clerkId: string, amount: int) returns (r: Outcome<string>)
      requires Valid()
      modifies this
      ensures Valid()
      ensures r.Pass? <==> clerkId in old(users)
      ensures r.Fail? ==> r.error == RECORD_NOT_FOUND && users == old(users)
      ensures r.Pass? ==> users == Credit(old(users), clerkId, amount).value
    {
      var user := Lookup(users, clerkId);
      if user.None? {
        return Fail(RECORD_NOT_FOUND);
      }
      users := users[clerkId := user.value.(credits := user.value.credits + amount)];
      r := Pass;
    }
  }
}
