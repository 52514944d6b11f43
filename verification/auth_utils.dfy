/** The in-memory set of revoked tokens of backend/auth_utils.py: a
    process-wide set that logout adds to and `/auth/me` consults. */
module AuthUtils {

  class TokenBlacklist {
    var tokens: set<string>

    /** The empty set the module starts with. */
    constructor ()
      ensures tokens == {}
    {
      tokens := {};
    }

    /** `is_token_blacklisted`. */
    function IsBlacklisted(token: string): (r: bool)
      reads this
      ensures r <==> token in tokens
    {
      token in tokens
    }

    /** `blacklist_token`: afterwards the token is revoked; a token already
        revoked leaves the set as it was, and no other token changes status. */
    method Blacklist(token: string)
      modifies this
      ensures tokens == old(tokens) + {token}
      ensures IsBlacklisted(token)
      ensures old(IsBlacklisted(token)) ==> tokens == old(tokens)
      ensures forall t :: t != token ==> IsBlacklisted(t) == old(IsBlacklisted(t))
    {
      tokens := tokens + {token};
    }

    /** `remove_blacklisted_token`: afterwards the token is not revoked, also
        when it never was (no error); no other token changes status. */
    method Remove(token: string)
      modifies this
      ensures tokens == old(tokens) - {token}
      ensures !IsBlacklisted(token)
      ensures forall t :: t != token ==> IsBlacklisted(t) == old(IsBlacklisted(t))
    {
      tokens := tokens - {token};
    }

    /** `clear_blacklisted_tokens`: afterwards no token is revoked. */
    method Clear()
      modifies this
      ensures tokens == {}
      ensures forall t :: !IsBlacklisted(t)
    {
      tokens := {};
    }
  }
}
