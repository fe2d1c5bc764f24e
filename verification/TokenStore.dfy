/** DatabaseEngine/TokenRepo.go over typed keys: sessions, the per-user session index, one-time tickets. */
module TokenStore {
  import opened Wrappers
  import opened Decimal
  import opened Keys
  import opened Redis

  const CODE_TTL: int := 60
  const SIGNUP_TTL: int := 24 * 3600
  const RESET_TTL: int := 150 * 60
  const SESSION_TTL: int := 14 * 86_400

  type Fields = map<string, string>

  // ---- one-time tickets: authorization codes, signup links, reset links ----

  predicate IsTicket(k: Key) {
    k.AuthCode? || k.SignUp? || k.Reset?
  }

  function TicketValue(k: Key): string
    requires IsTicket(k)
  {
    match k
    case AuthCode(code) => code
    case SignUp(ticket) => ticket
    case Reset(ticket) => ticket
  }

  /** 60 seconds, 24 hours, 150 minutes. */
  function TicketTtl(k: Key): int
    requires IsTicket(k)
  {
    match k
    case AuthCode(_) => CODE_TTL
    case SignUp(_) => SIGNUP_TTL
    case Reset(_) => RESET_TTL
  }

  /** HSET then EXPIRE: how every ticket is stored. */
  function PutHash(db: Store<Key>, now: int, k: Key, fields: Fields, ttl: int): Store<Key> {
    Expire(HSet(db, now, k, fields), now, k, ttl)
  }

  /** HGETALL with a missing or empty hash reported as an error. */
  function FindHash(db: Store<Key>, now: int, k: Key): Option<Fields> {
    match HGetAll(db, now, k)
    case None => None
    case Some(fields) => if fields == map[] then None else Some(fields)
  }

  /** HGETALL, then DEL if something was found: how every ticket is redeemed. */
  function TakeHash(db: Store<Key>, now: int, k: Key): (Store<Key>, Option<Fields>) {
    var found := FindHash(db, now, k);
    (if found.Some? then Del(db, k) else db, found)
  }

  /** ZADD with the expiry as score, ZREMRANGEBYSCORE up to now, EXPIRE. */
  function IndexMember<K(==)>(db: Store<K>, now: int, k: K, member: string, ttl: int): Store<K> {
    Expire(ZRemUpTo(ZAdd(db, now, k, now + ttl, member), now, k, now), now, k, ttl)
  }

  /** The pipeline of InsertSession: store the hash, index it by expiry, prune the index. */
  function InsertSession(db: Store<Key>, now: int, uid: string, sid: string, data: Fields, ttl: int): Store<Key> {
    IndexMember(PutHash(db, now, Session(uid, sid), data, ttl), now, SessionIndex(uid), sid, ttl)
  }

  /** ExtendSession renews the hash and the legacy set, not the index. */
  function ExtendSession(db: Store<Key>, now: int, uid: string, sid: string): Store<Key> {
    Expire(Expire(db, now, Session(uid, sid), SESSION_TTL), now, LegacyIndex(uid), SESSION_TTL)
  }

  datatype Location = Location(carrier: string, lat: string, lon: string)

  function CreateSessionData(userId: int64, clientId: string, deviceModel: string, deviceName: string,
                             language: string, blacklisted: bool, location: Location): Fields {
    map[
      "user_id" := FormatInt(userId),
      "blacklisted" := if blacklisted then "1" else "0",
      "client_id" := clientId,
      "device_model" := deviceModel,
      "device_name" := deviceName,
      "language" := language,
      "carrier" := location.carrier,
      "lat" := location.lat,
      "lon" := location.lon]
  }
}
