/** The in-memory store (memory/memory.go).

    `Contents` is the abstract value of a store, with one function per Storage
    operation. `Store` is the mutable implementation, whose methods are proved
    to do what those functions say. Every call is atomic: the mutex is not
    modelled. */
module Memory {
  import opened Basics
  import opened Records

  datatype StorageError = NotFound | Conflict | Unavailable

  datatype Contents = Contents(
    requests: map<string, AuthorizationRequest>,
    tokens: map<Hash, Token>,
    claims: map<string, Time>,
    lastCollection: Option<Time>)

  const EMPTY := Contents(map[], map[], map[], None)

  predicate CollectionDue(c: Contents, now: Time) {
    c.lastCollection == None || now - c.lastCollection.value >= MINUTE
  }

  function CollectRequests(m: map<string, AuthorizationRequest>, now: Time): map<string, AuthorizationRequest> {
    map id | id in m && !Collectable(now, m[id].expiresAt) :: m[id]
  }

  function CollectTokens(m: map<Hash, Token>, now: Time): map<Hash, Token> {
    map h | h in m && !Collectable(now, m[h].expiresAt) :: m[h]
  }

  function CollectClaims(m: map<string, Time>, now: Time): map<string, Time> {
    map k | k in m && !Collectable(now, m[k]) :: m[k]
  }

  function Collect(c: Contents, now: Time): Contents {
    if CollectionDue(c, now) then
      Contents(CollectRequests(c.requests, now), CollectTokens(c.tokens, now), CollectClaims(c.claims, now), Some(now))
    else c
  }

  function WithoutGrant(m: map<Hash, Token>, grantID: string): map<Hash, Token> {
    map h | h in m && m[h].grantID != grantID :: m[h]
  }

  function InsertRequest(m: map<string, AuthorizationRequest>, req: AuthorizationRequest):
    map<string, AuthorizationRequest>
  {
    if req.id in m then m else m[req.id := req]
  }

  function InsertToken(m: map<Hash, Token>, t: Token): map<Hash, Token> {
    if t.hash in m then m else m[t.hash := t]
  }

  function Consumed(m: map<Hash, Token>, h: Hash, now: Time): map<Hash, Token> {
    if h in m && m[h].consumedAt == None then m[h := m[h].(consumedAt := Some(now))] else m
  }

  /** ClaimOnce succeeds: the key is unclaimed or its claim has run out. */
  predicate ClaimFree(m: map<string, Time>, key: string, now: Time) {
    key in m ==> now >= m[key]
  }

  function Claimed(m: map<string, Time>, key: string, expiresAt: Time, now: Time): map<string, Time> {
    if ClaimFree(m, key, now) then m[key := expiresAt] else m
  }

  class Store {
    var requests: map<string, AuthorizationRequest>
    var tokens: map<Hash, Token>
    var claims: map<string, Time>
    var lastCollection: Option<Time>

    function Value(): Contents
      reads this
    {
      Contents(requests, tokens, claims, lastCollection)
    }

    constructor ()
      ensures Value() == EMPTY
    {
      requests, tokens, claims, lastCollection := map[], map[], map[], None;
    }

    method CreateAuthorizationRequest(req: AuthorizationRequest, now: Time) returns (r: Result<(), StorageError>)
      modifies this
      ensures var c := Collect(old(Value()), now);
        r == (if req.id in c.requests then Err(Conflict) else Ok(()))
          && Value() == c.(requests := InsertRequest(c.requests, req))
    {
      CollectLocked(now);
      if req.id in requests {
        return Err(Conflict);
      }
      requests := requests[req.id := req];
      return Ok(());
    }

    method AuthorizationRequest(id: string) returns (r: Result<AuthorizationRequest, StorageError>)
      ensures r == if id in requests then Ok(requests[id]) else Err(NotFound)
    {
      if id !in requests {
        return Err(NotFound);
      }
      return Ok(requests[id]);
    }

    method DeleteAuthorizationRequest(id: string) returns (r: Result<(), StorageError>)
      modifies this
      ensures r == if id in old(requests) then Ok(()) else Err(NotFound)
      ensures Value() == old(Value()).(requests := old(requests) - {id})
    {
      if id !in requests {
        assert requests == requests - {id};
        return Err(NotFound);
      }
      requests := requests - {id};
      return Ok(());
    }

    method CreateToken(t: Token, now: Time) returns (r: Result<(), StorageError>)
      modifies this
      ensures var c := Collect(old(Value()), now);
        r == (if t.hash in c.tokens then Err(Conflict) else Ok(())) && Value() == c.(tokens := InsertToken(c.tokens, t))
    {
      CollectLocked(now);
      if t.hash in tokens {
        return Err(Conflict);
      }
      tokens := tokens[t.hash := t];
      return Ok(());
    }

    method Token(hash: Hash) returns (r: Result<Token, StorageError>)
      ensures r == if hash in tokens then Ok(tokens[hash]) else Err(NotFound)
    {
      if hash !in tokens {
        return Err(NotFound);
      }
      return Ok(tokens[hash]);
    }

    /** Returns the record as it was before the call. */
    method ConsumeToken(hash: Hash, now: Time) returns (r: Result<Token, StorageError>)
      modifies this
      ensures r == if hash in old(tokens) then Ok(old(tokens)[hash]) else Err(NotFound)
      ensures Value() == old(Value()).(tokens := Consumed(old(tokens), hash, now))
    {
      if hash !in tokens {
        return Err(NotFound);
      }
      var before := tokens[hash];
      if before.consumedAt == None {
        tokens := tokens[hash := before.(consumedAt := Some(now))];
      }
      return Ok(before);
    }

    method RevokeToken(hash: Hash)
      modifies this
      ensures Value() == old(Value()).(tokens := old(tokens) - {hash})
    {
      tokens := tokens - {hash};
    }

    method RevokeGrant(grantID: string)
      modifies this
      ensures Value() == old(Value()).(tokens := WithoutGrant(old(tokens), grantID))
    {
      var all := tokens;
      var pending := tokens.Keys;
      while pending != {}
        invariant pending <= all.Keys
        invariant tokens == map h | h in all && (h in pending || all[h].grantID != grantID) :: all[h]
        invariant unchanged(`requests) && unchanged(`claims) && unchanged(`lastCollection)
        decreases |pending|
      {
        var h :| h in pending;
        if tokens[h].grantID == grantID {
          tokens := tokens - {h};
        }
        pending := pending - {h};
      }
    }

    method ClaimOnce(key: string, expiresAt: Time, now: Time) returns (r: Result<(), StorageError>)
      modifies this
      ensures var c := Collect(old(Value()), now);
        r == (if ClaimFree(c.claims, key, now) then Ok(()) else Err(Conflict))
        && Value() == c.(claims := Claimed(c.claims, key, expiresAt, now))
    {
      CollectLocked(now);
      if key in claims && now < claims[key] {
        return Err(Conflict);
      }
      claims := claims[key := expiresAt];
      return Ok(());
    }

    /** Removes expired records at most once a minute. */
    method CollectLocked(now: Time)
      modifies this
      ensures Value() == Collect(old(Value()), now)
    {
      if lastCollection.Some? && now - lastCollection.value < MINUTE {
        return;
      }
      lastCollection := Some(now);
      DropRequests(now);
      DropTokens(now);
      DropClaims(now);
    }

    method DropRequests(now: Time)
      modifies this`requests
      ensures requests == CollectRequests(old(requests), now)
    {
      var all, pending := requests, requests.Keys;
      while pending != {}
        invariant pending <= all.Keys
        invariant requests == map id | id in all && (id in pending || !Collectable(now, all[id].expiresAt)) :: all[id]
        decreases |pending|
      {
        var id :| id in pending;
        if now > requests[id].expiresAt {
          requests := requests - {id};
        }
        pending := pending - {id};
      }
    }

    method DropTokens(now: Time)
      modifies this`tokens
      ensures tokens == CollectTokens(old(tokens), now)
    {
      var all, pending := tokens, tokens.Keys;
      while pending != {}
        invariant pending <= all.Keys
        invariant tokens == map h | h in all && (h in pending || !Collectable(now, all[h].expiresAt)) :: all[h]
        decreases |pending|
      {
        var h :| h in pending;
        if now > tokens[h].expiresAt {
          tokens := tokens - {h};
        }
        pending := pending - {h};
      }
    }

    method DropClaims(now: Time)
      modifies this`claims
      ensures claims == CollectClaims(old(claims), now)
    {
      var all, pending := claims, claims.Keys;
      while pending != {}
        invariant pending <= all.Keys
        invariant claims == map k | k in all && (k in pending || !Collectable(now, all[k])) :: all[k]
        decreases |pending|
      {
        var k :| k in pending;
        if now > claims[k] {
          claims := claims - {k};
        }
        pending := pending - {k};
      }
    }
  }
}
