/**
 * The cache keys. The identity key carries the cache version; the token, context
 * and thread keys are scoped by the identity's string form, except that the
 * context is written under the bare key CONTEXT_KEY.
 */
module Keys {
  import opened Text

  const VERSION := 7
  const IDENTITY_KEY := "identity-" + NatToString(VERSION)
  const CONTEXT_KEY := "context"
  const TOKEN_KEY := "token"
  const USER_THREAD_ID := "user_thread"

  /** `${id}-${purpose}`: a key in the namespace of one identity. */
  function Scoped(id: string, purpose: string): (k: string)
    ensures |k| == |id| + 1 + |purpose|
    ensures k[..|id|] == id && k[|id|..|id| + 1] == "-" && k[|id| + 1..] == purpose
  {
    id + "-" + purpose
  }

  lemma IdentityKeyValue()
    ensures IDENTITY_KEY == "identity-7"
  {
  }

  /** Two identities never share a key of the same purpose. */
  lemma ScopedInjective(a: string, b: string, purpose: string)
    ensures Scoped(a, purpose) == Scoped(b, purpose) ==> a == b
  {
  }

  /** The last character of a scoped key is the last character of its purpose. */
  lemma ScopedLast(id: string, purpose: string)
    requires purpose != ""
    ensures Scoped(id, purpose)[|Scoped(id, purpose)| - 1] == purpose[|purpose| - 1]
  {
  }

  /**
   * The keys of different purposes never collide, whatever the identities: each
   * cache entry belongs to one helper.
   */
  lemma KeysDisjoint(a: string, b: string)
    ensures Scoped(a, TOKEN_KEY) != Scoped(b, USER_THREAD_ID)
    ensures Scoped(a, TOKEN_KEY) != Scoped(b, CONTEXT_KEY)
    ensures Scoped(a, USER_THREAD_ID) != Scoped(b, CONTEXT_KEY)
    ensures IDENTITY_KEY != Scoped(a, TOKEN_KEY) && IDENTITY_KEY != Scoped(a, USER_THREAD_ID)
    ensures IDENTITY_KEY != Scoped(a, CONTEXT_KEY)
    ensures CONTEXT_KEY != Scoped(a, TOKEN_KEY) && CONTEXT_KEY != Scoped(a, USER_THREAD_ID)
    ensures IDENTITY_KEY != CONTEXT_KEY
  {
    ScopedLast(a, TOKEN_KEY);
    ScopedLast(b, USER_THREAD_ID);
    ScopedLast(b, CONTEXT_KEY);
    ScopedLast(a, USER_THREAD_ID);
    ScopedLast(a, CONTEXT_KEY);
    IdentityKeyValue();
  }

  /**
   * The bare key the context is written under is never the key it is read from:
   * `${id}-context` is longer than "context" for every identity.
   */
  lemma BareContextKeyNeverScoped(id: string)
    ensures CONTEXT_KEY != Scoped(id, CONTEXT_KEY)
  {
  }
}
