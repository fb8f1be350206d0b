/** The Redis-backed refresh-token store (`AuthRepository`): one slot per
    email, each holding the principal's single valid refresh token together
    with the instant its time-to-live runs out. */
module SessionStore {
  import opened Wrappers
  import opened Users
  import opened Jwt

  datatype Entry = Entry(token: Token, expiresAt: int)

  type Slots = map<Email, Entry>

  /** Redis `GET key` at time `now`: the stored token while its TTL has not
      elapsed, null otherwise. */
  function Lookup(m: Slots, key: Email, now: int): Option<Token>
  {
    if key in m && now < m[key].expiresAt then Some(m[key].token) else None
  }

  /** Redis `SET key token EX ttl` at time `now`. */
  function Put(m: Slots, key: Email, token: Token, now: int, ttl: nat): (m': Slots)
    // the key now holds `token`, and nothing else, for the whole TTL
    ensures forall at :: now <= at < now + ttl ==> Lookup(m', key, at) == Some(token)
    ensures forall at :: now + ttl <= at ==> Lookup(m', key, at) == None
    // every other key is untouched
    ensures m'.Keys == m.Keys + {key}
    ensures forall k :: k in m && k != key ==> m'[k] == m[k]
  {
    m[key := Entry(token, now + ttl)]
  }

  datatype Removal = Removal(slots: Slots, count: nat)

  /** Redis `DEL key` at time `now`: the key is gone and the reply counts the
      live entries removed. */
  function Remove(m: Slots, key: Email, now: int): (r: Removal)
    ensures r.count == 1 <==> Lookup(m, key, now).Some?
    ensures r.count == 0 <==> Lookup(m, key, now).None?
    ensures forall at :: Lookup(r.slots, key, at) == None
    ensures r.slots.Keys == m.Keys - {key}
    ensures forall k :: k in r.slots ==> r.slots[k] == m[k]
  {
    Removal(m - {key}, if Lookup(m, key, now).Some? then 1 else 0)
  }

  class AuthRepository {
    /** The Redis keyspace this repository uses. */
    var slots: Slots
    /** `authConstants.redis.expirationTime.jwt.refreshToken`, in seconds. */
    const ttl: nat

    constructor (ttl: nat)
      ensures slots == map[] && this.ttl == ttl
    {
      slots := map[];
      this.ttl := ttl;
    }

    method AddRefreshToken(email: Email, token: Token, now: int)
      modifies this
      ensures slots == Put(old(slots), email, token, now, ttl)
    {
      slots := Put(slots, email, token, now, ttl);
    }

    method GetToken(key: Email, now: int) returns (r: Option<Token>)
      ensures r.Some? <==> key in slots && now < slots[key].expiresAt
      ensures r.Some? ==> r.value == slots[key].token
    {
      r := Lookup(slots, key, now);
    }

    method RemoveToken(key: Email, now: int) returns (count: nat)
      modifies this
      ensures Removal(slots, count) == Remove(old(slots), key, now)
    {
      var removal := Remove(slots, key, now);
      slots, count := removal.slots, removal.count;
    }
  }
}
