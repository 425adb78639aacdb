/** The accounts the server knows, by username. `add` refuses a taken
    username and does not save; `update` only ever replaces an existing
    account and then saves every account. */
module UserStorage {
  import opened Results
  import opened Wallets
  import opened Users

  datatype StoreError = UsernameTaken

  function StoreMessage(e: StoreError): string {
    match e
    case UsernameTaken => "Username is taken"
  }

  class UserStore {
    var users: map<string, User>
    /** How many times the accounts have been written out (`persist`). */
    var writes: nat

    /** Each account is filed under its own username and owns its wallet. */
    ghost predicate Valid()
      reads this
    {
      && (forall k :: k in users ==> users[k].username == k)
      && (forall j, k :: j in users && k in users && j != k ==> users[j].wallet != users[k].wallet)
    }

    ghost function OwnedWallets(): set<Wallet>
      reads this
    {
      set k | k in users :: users[k].wallet
    }

    /** What the accounts hold. */
    ghost function Accounts(): map<string, UserRecord>
      reads this, OwnedWallets()
    {
      map k | k in users :: users[k].Record()
    }

    /** An empty store; loading saved accounts is not part of this model. */
    constructor ()
      ensures users == map[] && writes == 0
    {
      users := map[];
      writes := 0;
    }

    /** `get`: absent usernames give `None`. */
    method Get(username: string) returns (u: Option<User>)
      ensures username in users ==> u == Some(users[username])
      ensures username !in users ==> u == None
    {
      if username in users {
        return Some(users[username]);
      }
      return None;
    }

    /** `add`. */
    method Add(u: User) returns (e: Option<StoreError>)
      modifies this
      ensures u.username in old(users) ==> e == Some(UsernameTaken) && users == old(users)
      ensures u.username !in old(users) ==> e == None && users == old(users)[u.username := u]
      ensures writes == old(writes)
      ensures old(Valid()) && u.wallet !in old(OwnedWallets()) ==> Valid()
    {
      if u.username in users {
        return Some(UsernameTaken);
      }
      users := users[u.username := u];
      return None;
    }

    /** `update`: `replace` followed by `persist`. */
    method Update(u: User)
      modifies this
      ensures users == if u.username in old(users) then old(users)[u.username := u] else old(users)
      ensures writes == old(writes) + 1
      ensures old(Valid()) && (forall k :: k in old(users) && k != u.username ==> old(users)[k].wallet != u.wallet)
        ==> Valid()
    {
      if u.username in users {
        users := users[u.username := u];
      }
      writes := writes + 1;
    }
  }
}
