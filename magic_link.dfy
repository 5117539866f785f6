/**
 * services/magic_link_service.go: sign-in tokens. Each token belongs to one user, expires a
 * quarter of an hour after it is made, and is deleted by its first successful use.
 */
module MagicLinks {
  import opened Wrappers
  import opened GoTime

  /** A row of `magic_links`, keyed by its token. */
  datatype MagicLink = MagicLink(userId: string, expiresAt: int)

  datatype LinkError =
    | DuplicateToken // the primary-key violation of the INSERT
    | NoRows         // sql.ErrNoRows: no such token
    | TokenExpired   // utils.NewError("TokenExpired", "Token has expired")

  const TokenLifetime := 15 * Minute

  /** The table after CreateToken, and the token it answers with. */
  function Created(links: map<string, MagicLink>, userId: string, token: string, now: int)
    : (r: (Result<string, LinkError>, map<string, MagicLink>))
    ensures token in links ==> r == (Failure(DuplicateToken), links)
    ensures token !in links ==>
      && r.0 == Success(token)
      && r.1.Keys == links.Keys + {token}
      && r.1[token] == MagicLink(userId, now + TokenLifetime)
      && (forall t | t in links :: r.1[t] == links[t])
  {
    if token in links then (Failure(DuplicateToken), links)
    else (Success(token), links[token := MagicLink(userId, now + TokenLifetime)])
  }

  /** The table after VerifyToken at time `now`, and the user it answers with. */
  function Verified(links: map<string, MagicLink>, token: string, now: int)
    : (r: (Result<string, LinkError>, map<string, MagicLink>))
    ensures token !in links ==> r == (Failure(NoRows), links)
    ensures token in links && now > links[token].expiresAt ==> r == (Failure(TokenExpired), links)
    ensures token in links && now <= links[token].expiresAt ==>
      && r.0 == Success(links[token].userId)
      && token !in r.1
      && r.1 == links - {token}
  {
    if token !in links then (Failure(NoRows), links)
    else if now > links[token].expiresAt then (Failure(TokenExpired), links)
    else (Success(links[token].userId), links - {token})
  }

  class MagicLinkService {
    var links: map<string, MagicLink>

    constructor()
      ensures links == map[]
    {
      links := map[];
    }

    /** CreateToken: store the fresh token `token` for the user, expiring 15 minutes after `now`. */
    method CreateToken(userId: string, token: string, now: int) returns (r: Result<string, LinkError>)
      modifies this
      ensures (r, links) == Created(old(links), userId, token, now)
    {
      if token in links {
        return Failure(DuplicateToken);
      }
      links := links[token := MagicLink(userId, now + TokenLifetime)];
      r := Success(token);
    }

    /**
     * VerifyToken: the token's user, if the token exists and `now` is not after its expiry;
     * the token is then deleted. An expired token stays in the table.
     */
    method VerifyToken(token: string, now: int) returns (r: Result<string, LinkError>)
      modifies this
      ensures (r, links) == Verified(old(links), token, now)
    {
      if token !in links {
        return Failure(NoRows);
      }
      var link := links[token];
      if now > link.expiresAt {
        return Failure(TokenExpired);
      }
      links := links - {token};
      r := Success(link.userId);
    }
  }

  /** A token works once: after a successful verification, verifying it again fails. */
  lemma SingleUse(links: map<string, MagicLink>, token: string, now: int, later: int)
    requires Verified(links, token, now).0.Success?
    ensures Verified(Verified(links, token, now).1, token, later).0 == Failure(NoRows)
  {
  }

  /**
   * A fresh token signs its user in at any time up to 15 minutes after it was made, and
   * is refused as expired afterwards.
   */
  lemma {:induction false} ValidForFifteenMinutes(links: map<string, MagicLink>, userId: string, token: string,
                                                  now: int, at: int)
    requires token !in links
    ensures var after := Created(links, userId, token, now).1;
      && (at <= now + 15 * Minute ==> Verified(after, token, at).0 == Success(userId))
      && (at > now + 15 * Minute ==> Verified(after, token, at) == (Failure(TokenExpired), after))
  {
    var after := Created(links, userId, token, now).1;
    assert after[token] == MagicLink(userId, now + TokenLifetime);
  }

  /** Verifying one token leaves every other token as it was. */
  lemma VerifyTouchesOnlyItsToken(links: map<string, MagicLink>, token: string, now: int, other: string)
    requires other != token
    ensures other in Verified(links, token, now).1 <==> other in links
    ensures other in links ==> Verified(links, token, now).1[other] == links[other]
  {
  }
}
