/**
 The two cryptographic collaborators of the server, as opaque values:
 bcrypt password hashing and JSON Web Tokens signed with the server
 secret. Nothing about their byte formats is modelled.
 */
module Crypto {
  import opened Wrappers
  import opened Store

  /**
   A stored bcrypt hash. The constructor stands for an injective one-way
   function: two hashes are equal exactly when their passwords are.
   */
  datatype PasswordHash = HashOf(password: string)

  /** `bcrypt.hash(password, 10)` */
  function Hash(password: string): PasswordHash {
    HashOf(password)
  }

  /** `bcrypt.compare(password, hash)` */
  predicate Matches(password: string, h: PasswordHash) {
    h == Hash(password)
  }

  /** A password is accepted by the hash of exactly that password. */
  lemma MatchesExactly(p: string, q: string)
    ensures Matches(p, Hash(q)) <==> p == q
  {
  }

  /** The payload of a token: login tokens carry all three, reset tokens only the id. */
  datatype Claims = Claims(userId: Option<Id>, email: Option<string>, role: Option<string>)

  /** A signed token: its claims, its expiry instant, and the key it was signed with. */
  datatype Jwt = Jwt(claims: Claims, expiry: int, key: string)

  /** `expiresIn: '5h'`, in seconds. */
  const LoginTtl: int := 5 * 60 * 60
  /** `expiresIn: '15m'`, in seconds. */
  const ResetTtl: int := 15 * 60

  /** `jwt.sign(claims, secret, { expiresIn: ttl })` at instant `now`. */
  function Sign(secret: string, claims: Claims, now: int, ttl: int): (t: Jwt)
    ensures t.claims == claims && t.expiry == now + ttl
  {
    Jwt(claims, now + ttl, secret)
  }

  /**
   `jwt.verify(token, secret)` at instant `now`: the claims when the token
   was signed with `secret` and has not expired, otherwise None (the
   library throws).
   */
  function Verify(secret: string, t: Jwt, now: int): (r: Option<Claims>)
    ensures r.Some? <==> t.key == secret && now < t.expiry
    ensures r.Some? ==> r.value == t.claims
  {
    if t.key == secret && now < t.expiry then Some(t.claims) else None
  }

  /** A token the server signed verifies, with its claims, until exactly `ttl` has passed. */
  lemma SignedTokenLifetime(secret: string, claims: Claims, issued: int, ttl: int, now: int)
    ensures Verify(secret, Sign(secret, claims, issued, ttl), now) == Some(claims) <==> now < issued + ttl
    ensures Verify(secret, Sign(secret, claims, issued, ttl), now).None? <==> now >= issued + ttl
  {
  }

  /** A token signed with any other key never verifies. */
  lemma ForeignTokenRejected(secret: string, other: string, claims: Claims, issued: int, ttl: int, now: int)
    requires other != secret
    ensures Verify(secret, Sign(other, claims, issued, ttl), now).None?
  {
  }
}
