/**
 * The single-row token table of src/CodexTokenStore.php.  `store` updates the
 * existing row in place or creates one, `clear` deletes every row, and the
 * expiry predicates compare the row's expiry with the current time, which is
 * passed in as whole seconds.
 */
module TokenStore {
  import opened Wrappers
  import opened PhpArray

  datatype Record = Record(
    accessToken: string,
    refreshToken: string,
    expiresAt: int,
    accountId: Option<string>,
    email: Option<string>,
    tokenData: Value)

  /** The columns handed to `store`: `None` for a key that is not supplied,
      `Some(None)` for a nullable column supplied as null. */
  datatype Update = Update(
    accessToken: Option<string>,
    refreshToken: Option<string>,
    expiresAt: Option<int>,
    accountId: Option<Option<string>>,
    email: Option<Option<string>>,
    tokenData: Option<Value>)

  /** An update that supplies every column. */
  predicate Complete(u: Update) {
    u.accessToken.Some? && u.refreshToken.Some? && u.expiresAt.Some?
    && u.accountId.Some? && u.email.Some? && u.tokenData.Some?
  }

  /** `$existing->update($data)`: the supplied columns take their new values,
      every other column keeps its old one. */
  function Merge(r: Record, u: Update): (m: Record)
    ensures m.accessToken == (if u.accessToken.Some? then u.accessToken.value else r.accessToken)
    ensures m.refreshToken == (if u.refreshToken.Some? then u.refreshToken.value else r.refreshToken)
    ensures m.expiresAt == (if u.expiresAt.Some? then u.expiresAt.value else r.expiresAt)
    ensures m.accountId == (if u.accountId.Some? then u.accountId.value else r.accountId)
    ensures m.email == (if u.email.Some? then u.email.value else r.email)
    ensures m.tokenData == (if u.tokenData.Some? then u.tokenData.value else r.tokenData)
  {
    Record(
      u.accessToken.GetOr(r.accessToken),
      u.refreshToken.GetOr(r.refreshToken),
      u.expiresAt.GetOr(r.expiresAt),
      u.accountId.GetOr(r.accountId),
      u.email.GetOr(r.email),
      u.tokenData.GetOr(r.tokenData))
  }

  /** `static::create($data)`: the tokens and the expiry are required columns
      (creation without them is a database error, `None`); the nullable columns
      default to null. */
  function Create(u: Update): (r: Option<Record>)
    ensures r.Some? <==> u.accessToken.Some? && u.refreshToken.Some? && u.expiresAt.Some?
    ensures r.Some? ==> r.value.accessToken == u.accessToken.value && r.value.refreshToken == u.refreshToken.value
                        && r.value.expiresAt == u.expiresAt.value
                        && r.value.accountId == u.accountId.GetOr(None) && r.value.email == u.email.GetOr(None)
                        && r.value.tokenData == u.tokenData.GetOr(Null)
  {
    if u.accessToken.None? || u.refreshToken.None? || u.expiresAt.None? then None
    else Some(Record(u.accessToken.value, u.refreshToken.value, u.expiresAt.value,
                     u.accountId.GetOr(None), u.email.GetOr(None), u.tokenData.GetOr(Null)))
  }

  /** The row after `store(data)` on a table holding `current`; `None` when the
      store fails. */
  function Upsert(current: Option<Record>, u: Update): (r: Option<Record>)
    ensures current.Some? ==> r == Some(Merge(current.value, u))
    ensures current.None? ==> r == Create(u)
  {
    if current.Some? then Some(Merge(current.value, u)) else Create(u)
  }

  /** An update that supplies every column determines the whole row, whatever
      was stored before. */
  lemma CompleteUpdateDeterminesRow(current: Option<Record>, u: Update)
    requires Complete(u)
    ensures Upsert(current, u) == Create(u) && Create(u).Some?
  {
  }

  /** The row after a sequence of `store` calls; a failed call changes nothing. */
  function StoreAll(current: Option<Record>, us: seq<Update>): Option<Record>
    decreases |us|
  {
    if us == [] then current
    else
      var next := Upsert(current, us[0]);
      StoreAll(if next.Some? then next else current, us[1..])
  }

  /** After a sequence of stores that ends with one supplying the access token,
      and begins on a row or with a creatable record, the row shows that last
      access token. */
  lemma {:induction false} LastStoreWins(current: Option<Record>, us: seq<Update>)
    requires us != [] && us[|us| - 1].accessToken.Some?
    requires current.Some? || Create(us[0]).Some?
    ensures StoreAll(current, us).Some?
    ensures StoreAll(current, us).value.accessToken == us[|us| - 1].accessToken.value
    decreases |us|
  {
    var next := Upsert(current, us[0]);
    assert next.Some?;
    if |us| > 1 {
      assert us[1..][|us[1..]| - 1] == us[|us| - 1];
      LastStoreWins(next, us[1..]);
    }
  }

  const DefaultBuffer := 60

  /** `isExpired`: the expiry lies in the past. */
  predicate IsExpired(r: Record, now: int) {
    r.expiresAt < now
  }

  /** `isExpiringSoon($bufferSeconds)`: the expiry minus the buffer lies in the past. */
  predicate IsExpiringSoon(r: Record, now: int, bufferSeconds: int) {
    r.expiresAt - bufferSeconds < now
  }

  /** An expired token is expiring soon for every non-negative buffer. */
  lemma ExpiredIsExpiringSoon(r: Record, now: int, bufferSeconds: int)
    requires bufferSeconds >= 0 && IsExpired(r, now)
    ensures IsExpiringSoon(r, now, bufferSeconds)
  {
  }

  /** A larger buffer never turns "expiring soon" off. */
  lemma ExpiringSoonMonotone(r: Record, now: int, b1: int, b2: int)
    requires b1 <= b2 && IsExpiringSoon(r, now, b1)
    ensures IsExpiringSoon(r, now, b2)
  {
  }

  /** A token 30 seconds from expiry is expiring soon for a 60-second buffer
      but not for a 10-second one. */
  lemma ThirtySecondsFromExpiry(r: Record, now: int)
    requires r.expiresAt == now + 30
    ensures IsExpiringSoon(r, now, DefaultBuffer) && !IsExpiringSoon(r, now, 10) && !IsExpired(r, now)
  {
  }

  /** The table.  Its rows are kept to at most one by `store`'s upsert. */
  class Store {
    var rows: seq<Record>

    ghost predicate Valid()
      reads this
    {
      |rows| <= 1
    }

    constructor ()
      ensures Valid() && rows == []
    {
      rows := [];
    }

    /** `current()`: the row, or none when the table is empty. */
    function Current(): (r: Option<Record>)
      reads this
      requires Valid()
      ensures r.None? <==> rows == []
      ensures r.Some? ==> rows == [r.value]
    {
      if rows == [] then None else Some(rows[0])
    }

    /** `store($data)`: update-or-create, leaving exactly one row when it succeeds. */
    method Store(u: Update) returns (ok: bool)
      requires Valid()
      modifies this
      ensures Valid()
      ensures ok == Upsert(old(Current()), u).Some?
      ensures ok ==> |rows| == 1 && Current() == Upsert(old(Current()), u)
      ensures !ok ==> rows == old(rows)
    {
      if rows != [] {
        rows := [Merge(rows[0], u)];
        ok := true;
      } else {
        var created := Create(u);
        if created.Some? {
          rows := rows + [created.value];
          ok := true;
        } else {
          ok := false;
        }
      }
    }

    /** `clear()`: delete every row; clearing an empty table changes nothing. */
    method Clear()
      requires Valid()
      modifies this
      ensures Valid() && rows == [] && Current() == None
    {
      rows := [];
    }
  }
}
