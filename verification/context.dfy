/** `CustomerContext` (agent.py:210-228): a table from session id to a small
    key/value record holding what the login widgets learnt about the customer.
    The table is a value here; every write returns the new table. */
module CustomerContext {
  import opened Wrappers
  import opened PyDict

  type SessionId = string

  /** One session's record, e.g. `{"customer_id": "CUST001"}`. */
  type Record = Dict<string, string>

  type Sessions = map<SessionId, Record>

  const CustomerIdKey := "customer_id"
  const CustomerEmailKey := "customer_email"

  /** A freshly constructed store has no sessions. */
  function Init(): (st: Sessions)
    ensures st.Keys == {}
    ensures forall s :: GetContext(st, s) == []
  {
    map[]
  }

  /** `get_context`: the session's record, or a fresh empty record for a
      session never written; reading never adds an entry to the table. */
  function GetContext(st: Sessions, s: SessionId): (r: Record)
    ensures s !in st ==> r == []
    ensures s in st ==> r == st[s]
  {
    if s in st then st[s] else []
  }

  /** `update_context`: merges `c` into the session's record, creating the
      record first when the session is new. */
  function UpdateContext(st: Sessions, s: SessionId, c: Record): (r: Sessions)
    requires DistinctKeys(c)
    // the keys of `c` take their values from `c` ...
    ensures forall k :: HasKey(c, k) ==> Get(GetContext(r, s), k) == Get(c, k)
    // ... and every other key keeps its old value, or stays absent
    ensures forall k :: !HasKey(c, k) ==> Get(GetContext(r, s), k) == Get(GetContext(st, s), k)
    // keys already present keep their place in the record
    ensures var old_ := GetContext(st, s); var new_ := GetContext(r, s);
      |old_| <= |new_| && forall i :: 0 <= i < |old_| ==> new_[i].0 == old_[i].0
    // keys new to the record follow the old ones, in the order `c` lists them
    ensures var old_ := GetContext(st, s); var new_ := GetContext(r, s);
      |new_| == |old_| + |NewEntries(old_, c)| && new_[|old_|..] == NewEntries(old_, c)
    // the session now has an entry, even when `c` is empty
    ensures r.Keys == st.Keys + {s}
    // no other session is touched
    ensures forall t :: t in st && t != s ==> r[t] == st[t]
  {
    st[s := Update(GetContext(st, s), c)]
  }

  /** `set_customer_id`. */
  function SetCustomerId(st: Sessions, s: SessionId, customerId: string): (r: Sessions)
    ensures Get(GetContext(r, s), CustomerIdKey) == Some(customerId)
    ensures forall k :: k != CustomerIdKey ==> Get(GetContext(r, s), k) == Get(GetContext(st, s), k)
    ensures r.Keys == st.Keys + {s}
    ensures forall t :: t in st && t != s ==> r[t] == st[t]
  {
    UpdateSingle(GetContext(st, s), CustomerIdKey, customerId);
    UpdateContext(st, s, [(CustomerIdKey, customerId)])
  }

  /** `set_customer_email`: the key written is `customer_email`, so a record's
      `email` key, if any, is left as it was. */
  function SetCustomerEmail(st: Sessions, s: SessionId, email: string): (r: Sessions)
    ensures Get(GetContext(r, s), CustomerEmailKey) == Some(email)
    ensures forall k :: k != CustomerEmailKey ==> Get(GetContext(r, s), k) == Get(GetContext(st, s), k)
    ensures r.Keys == st.Keys + {s}
    ensures forall t :: t in st && t != s ==> r[t] == st[t]
  {
    UpdateSingle(GetContext(st, s), CustomerEmailKey, email);
    UpdateContext(st, s, [(CustomerEmailKey, email)])
  }

  /** Reading an unknown session yields the empty record; a read returns no
      new table, so the session stays absent. An update with the empty record,
      by contrast, does create the entry (still empty). */
  lemma ReadDoesNotCreateButEmptyUpdateDoes(st: Sessions, s: SessionId)
    requires s !in st
    ensures GetContext(st, s) == []
    ensures var st' := UpdateContext(st, s, []);
      s in st' && GetContext(st', s) == [] && st'.Keys == st.Keys + {s}
  {
  }

  /** Writing the same record twice is the same as writing it once. */
  lemma UpdateContextIdempotent(st: Sessions, s: SessionId, c: Record)
    requires DistinctKeys(c) && DistinctKeys(GetContext(st, s))
    ensures UpdateContext(UpdateContext(st, s, c), s, c) == UpdateContext(st, s, c)
  {
    UpdateIdempotent(GetContext(st, s), c);
  }

  /** Logging in by id and then by email on a new session yields the record
      `{"customer_id": id, "customer_email": email}`, in that order: the
      order in which the agent's prompt shows it. */
  lemma LoginRecord(st: Sessions, s: SessionId, customerId: string, email: string)
    requires s !in st
    ensures GetContext(SetCustomerEmail(SetCustomerId(st, s, customerId), s, email), s)
      == [(CustomerIdKey, customerId), (CustomerEmailKey, email)]
  {
    var st1 := SetCustomerId(st, s, customerId);
    UpdateSingle([], CustomerIdKey, customerId);
    assert GetContext(st1, s) == [(CustomerIdKey, customerId)];
    UpdateSingle(GetContext(st1, s), CustomerEmailKey, email);
    var r := [(CustomerIdKey, customerId)];
    assert r[1..] == [];
    assert Put(r, CustomerEmailKey, email) == [r[0]] + Put([], CustomerEmailKey, email);
  }
}
