/** DatabaseEngine/TokenRepo.go itself: string keys built by concatenation, proved against TokenStore. */
module TokenEngine {
  import opened Wrappers
  import opened Decimal
  import opened Passwords
  import opened Keys
  import opened Redis
  import opened TS = TokenStore

  lemma IndexMemberCommutes(db: Store<string>, view: Store<Key>, now: int, k: Key, member: string, ttl: int)
    requires Represents(db, view) && WellFormed(k)
    ensures Represents(IndexMember(db, now, Text(k), member, ttl), IndexMember(view, now, k, member, ttl))
  {
    var db1, view1 := ZAdd(db, now, Text(k), now + ttl, member), ZAdd(view, now, k, now + ttl, member);
    ZAddCommutes(db, view, now, k, now + ttl, member);
    var db2, view2 := ZRemUpTo(db1, now, Text(k), now), ZRemUpTo(view1, now, k, now);
    ZRemUpToCommutes(db1, view1, now, k, now);
    ExpireCommutes(db2, view2, now, k, ttl);
  }

  class TokenRepo {
    const redis: Server
    /** The same contents under typed keys. */
    ghost var view: Store<Key>

    ghost predicate Valid()
      reads this, redis
    {
      Represents(redis.db, view)
    }

    constructor (redis: Server)
      requires redis.db == map[]
      ensures Valid() && this.redis == redis && view == map[]
    {
      this.redis := redis;
      view := map[];
    }

    method PutTicket(ghost k: Key, key: string, fields: Fields, ttl: int)
      requires Valid() && WellFormed(k) && key == Text(k)
      modifies this, redis`db
      ensures Valid() && view == PutHash(old(view), redis.now, k, fields, ttl)
    {
      HSetCommutes(redis.db, view, redis.now, k, fields);
      redis.db := HSet(redis.db, redis.now, key, fields);
      view := HSet(view, redis.now, k, fields);
      ExpireCommutes(redis.db, view, redis.now, k, ttl);
      redis.db := Expire(redis.db, redis.now, key, ttl);
      view := Expire(view, redis.now, k, ttl);
    }

    method TakeTicket(ghost k: Key, key: string) returns (data: Option<Fields>)
      requires Valid() && WellFormed(k) && key == Text(k)
      modifies this, redis`db
      ensures Valid() && (view, data) == TakeHash(old(view), redis.now, k)
    {
      ReadsCommute(redis.db, view, redis.now, k);
      RepresentsRemove(redis.db, view, k);
      var result := HGetAll(redis.db, redis.now, key);
      if result.None? || result.value == map[] {
        return None;
      }
      redis.db := Del(redis.db, key);
      view := Del(view, k);
      return result;
    }

    method InsertAuthCode(code: Token, data: Fields)
      requires Valid()
      modifies this, redis`db
      ensures Valid() && view == PutHash(old(view), redis.now, AuthCode(code), data, CODE_TTL)
    {
      PutTicket(AuthCode(code), "auth_code:" + code, data, CODE_TTL);
    }

    method GetAuthCode(code: string) returns (data: Option<Fields>)
      requires Valid()
      modifies this, redis`db
      ensures Valid() && (view, data) == TakeHash(old(view), redis.now, AuthCode(code))
    {
      data := TakeTicket(AuthCode(code), "auth_code:" + code);
    }

    method SignUpInsert(ticket: string, email: string)
      requires Valid()
      modifies this, redis`db
      ensures Valid() && view == PutHash(old(view), redis.now, SignUp(ticket), map["email" := email], SIGNUP_TTL)
    {
      PutTicket(SignUp(ticket), "signup:" + ticket, map["email" := email], SIGNUP_TTL);
    }

    method VerifySignup(link: string) returns (data: Option<Fields>)
      requires Valid()
      modifies this, redis`db
      ensures Valid() && (view, data) == TakeHash(old(view), redis.now, SignUp(link))
    {
      data := TakeTicket(SignUp(link), "signup:" + link);
    }

    method ResetInsert(ticket: string, email: string)
      requires Valid()
      modifies this, redis`db
      ensures Valid() && view == PutHash(old(view), redis.now, Reset(ticket), map["email" := email], RESET_TTL)
    {
      PutTicket(Reset(ticket), "reset:" + ticket, map["email" := email], RESET_TTL);
    }

    method VerifyReset(link: string) returns (data: Option<Fields>)
      requires Valid()
      modifies this, redis`db
      ensures Valid() && (view, data) == TakeHash(old(view), redis.now, Reset(link))
    {
      data := TakeTicket(Reset(link), "reset:" + link);
    }

    /** The key arrives as text; whichever key that text writes is the one looked up. */
    method GetSessionByID(key: string) returns (data: Option<Fields>)
      requires Valid()
      ensures forall k :: WellFormed(k) && Text(k) == key && key != "" ==> data == FindHash(view, redis.now, k)
    {
      forall k | WellFormed(k) && Text(k) == key
        ensures HGetAll(redis.db, redis.now, key) == HGetAll(view, redis.now, k)
      {
        ReadsCommute(redis.db, view, redis.now, k);
      }
      if key == "" {
        return None;
      }
      var result := HGetAll(redis.db, redis.now, key);
      if result.None? || result.value == map[] {
        return None;
      }
      return result;
    }

    method GetTokenInfo(c: Crypto, refreshToken: string) returns (data: Option<Fields>)
      requires Valid()
      ensures data == HGetAll(view, redis.now, Bare(Sha256Hex(c, refreshToken)))
    {
      var hashedToken := Sha256Hex(c, refreshToken);
      HexColonFree(hashedToken);
      ReadsCommute(redis.db, view, redis.now, Bare(hashedToken));
      data := HGetAll(redis.db, redis.now, hashedToken);
    }

    method GetOPToken(token: string) returns (data: Option<Fields>)
      requires Valid()
      ensures data == FindHash(view, redis.now, OpToken(token))
    {
      ReadsCommute(redis.db, view, redis.now, OpToken(token));
      data := HGetAll(redis.db, redis.now, "op_token:" + token);
      if data.Some? && data.value == map[] {
        data := None;
      }
    }

    /** ZADD, drop what has expired, EXPIRE. */
    method AddToIndex(ghost k: Key, setKey: string, member: string, ttl: int)
      requires Valid() && WellFormed(k) && setKey == Text(k)
      modifies this, redis`db
      ensures Valid() && view == TS.IndexMember(old(view), redis.now, k, member, ttl)
    {
      hide Represents, ZAdd, ZRemUpTo, Expire;
      var now := redis.now;
      IndexMemberCommutes(redis.db, view, now, k, member, ttl);
      redis.db := ZAdd(redis.db, now, setKey, now + ttl, member);
      redis.db := ZRemUpTo(redis.db, now, setKey, now);
      redis.db := Expire(redis.db, now, setKey, ttl);
      view := IndexMember(view, now, k, member, ttl);
    }

    method InsertSession(sessionID: string, userId: int64, data: Fields, ttl: int)
      requires Valid()
      modifies this, redis`db
      ensures Valid()
      ensures view == TS.InsertSession(old(view), redis.now, FormatInt(userId), sessionID, data, ttl)
    {
      var uid := FormatInt(userId);
      FormatIntColonFree(userId);
      PutTicket(Session(uid, sessionID), "session:" + uid + ":" + sessionID, data, ttl);
      AddToIndex(SessionIndex(uid), "user:sessions:v2:" + uid, sessionID, ttl);
    }

    /** The typed key that a text writes, when there is one, takes part in the command. */
    lemma TextNamesOneKey(k: Key)
      requires WellFormed(k)
      ensures forall j :: WellFormed(j) && Text(j) == Text(k) ==> j == k
    {
      forall j | WellFormed(j) && Text(j) == Text(k) ensures j == k {
        TextInjective(j, k);
      }
    }

    /** The session key arrives as text; the legacy set key is built here. */
    method ExtendSession(userId: int64, sessionKey: string)
      requires Valid()
      modifies this, redis`db
      ensures Valid()
      ensures forall k :: WellFormed(k) && Text(k) == sessionKey ==>
                view == Expire(Expire(old(view), redis.now, k, SESSION_TTL),
                               redis.now, LegacyIndex(FormatInt(userId)), SESSION_TTL)
    {
      var legacyKey := "user:sessions:" + FormatInt(userId);
      ghost var legacy := LegacyIndex(FormatInt(userId));
      FormatIntColonFree(userId);
      ghost var updated := view;
      if k :| WellFormed(k) && Text(k) == sessionKey {
        TextNamesOneKey(k);
        ExpireCommutes(redis.db, view, redis.now, k, SESSION_TTL);
        updated := Expire(view, redis.now, k, SESSION_TTL);
      }
      redis.db := Expire(redis.db, redis.now, sessionKey, SESSION_TTL);
      view := updated;
      ExpireCommutes(redis.db, view, redis.now, legacy, SESSION_TTL);
      redis.db := Expire(redis.db, redis.now, legacyKey, SESSION_TTL);
      view := Expire(view, redis.now, legacy, SESSION_TTL);
    }

    /** DEL on the given text: only the key written that way, if any, goes. */
    method DeleteToken(text: string)
      requires Valid()
      modifies this, redis`db
      ensures Valid()
      ensures forall k :: WellFormed(k) && Text(k) == text ==> view == Del(old(view), k)
    {
      ghost var updated := view;
      if k :| WellFormed(k) && Text(k) == text {
        TextNamesOneKey(k);
        RepresentsRemove(redis.db, view, k);
        updated := Del(view, k);
      }
      redis.db := Del(redis.db, text);
      view := updated;
    }
  }
}
