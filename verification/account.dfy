/** The record a client sends to register an account, and the storage key derived from it. */
module Account {
  import opened Wrappers

  datatype NewAccount = NewAccount(id: string, password: string)

  const KeyPrefix: string := "account:"

  /** The key under which the account is stored: the prefix `account:` followed by the id. */
  function GetKey(a: NewAccount): (key: string)
    ensures |key| == |a.id| + 8
    ensures key[..8] == KeyPrefix
    ensures key[8..] == a.id
  {
    KeyPrefix + a.id
  }

  /** Recovers the account id from a storage key, if the key has the account prefix. */
  function KeyId(key: string): (id: Option<string>)
    ensures id.Some? <==> |key| >= 8 && key[..8] == KeyPrefix
  {
    if |key| >= 8 && key[..8] == KeyPrefix then Some(key[8..]) else None
  }

  /** Reading the id back out of a key gives the id it was made from. */
  lemma KeyRoundTrip(a: NewAccount)
    ensures KeyId(GetKey(a)) == Some(a.id)
  {
  }

  /** Distinct ids give distinct keys, and equal ids give equal keys. */
  lemma GetKeyInjective(a: NewAccount, b: NewAccount)
    ensures GetKey(a) == GetKey(b) <==> a.id == b.id
  {
    if GetKey(a) == GetKey(b) {
      assert a.id == GetKey(a)[8..] == GetKey(b)[8..] == b.id;
    }
  }

  /** The key does not depend on the password. */
  lemma GetKeyIgnoresPassword(a: NewAccount, password: string)
    ensures GetKey(a.(password := password)) == GetKey(a)
  {
  }
}
