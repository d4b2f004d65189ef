// What each step of the token machine does, from the accounts and tokens before it.
module TokenEffects {
  import opened Options
  import opened Tokens

  // Never used, and not past its time.
  predicate InService(t: Token, now: int) { t.usedAt == None && now < t.expires }

  predicate RightLength(password: string) { 8 <= |password| <= 128 }

  // The account is there, and nobody has proved to own it yet.
  predicate Unproven(a: Accounts, user: nat) { user in a.users && a.users[user].verifiedAt == None }

  // A redemption activates the token's account exactly for a password of the right length, a
  // token of that purpose in service, and an account not active yet. It then installs that
  // password, verifies the account and uses the token up, and touches nothing else; otherwise
  // it changes nothing at all.
  lemma RedeemDoes(a: Accounts, h: nat, p: Purpose, password: string, now: int)
    ensures
      var (b, r) := Step(a, Redeem(h, p, password, now));
      var good := h in a.tokens && a.tokens[h].purpose == p && InService(a.tokens[h], now)
                  && Unproven(a, a.tokens[h].user);
      && (r == Refused(PasswordInvalidLength) <==> !RightLength(password))
      && (r == Refused(TokenInvalid) <==> RightLength(password) && !good)
      && (r.Activated? <==> RightLength(password) && good)
      && (!r.Activated? ==> b == a)
      && (r.Activated? ==>
            && r.user == a.tokens[h].user
            && b.users == a.users[r.user := User(Some(password), Some(now))]
            && b.tokens == a.tokens[h := a.tokens[h].(usedAt := Some(now))])
  {
  }

  // Minting adds a token good for a day, or for thirty to claim an account, and uses up the
  // user's others of that purpose in service; no other token and no account changes.
  lemma MintDoes(a: Accounts, user: nat, p: Purpose, h: nat, now: int)
    ensures
      var (b, r) := Step(a, Mint(user, p, h, now));
      && (r == Done <==> user in a.users && h !in a.tokens)
      && (r != Done ==> r == Refused(DatabaseError) && b == a)
      && b.users == a.users
      && (r == Done ==>
            && b.tokens.Keys == a.tokens.Keys + {h}
            && b.tokens[h] == Token(user, p, now + (match p case Verify => 86400 case Claim => 2592000), None)
            && forall g :: g in a.tokens ==>
                 b.tokens[g] ==
                   if a.tokens[g].user == user && a.tokens[g].purpose == p && InService(a.tokens[g], now)
                   then a.tokens[g].(usedAt := Some(now)) else a.tokens[g])
  {
  }

  // A claim preview is shown exactly for a claim token in service of an account that exists;
  // it changes nothing.
  lemma PreviewDoes(a: Accounts, h: nat, now: int)
    ensures
      var (b, r) := Step(a, Preview(h, now));
      && b == a
      && (r == Done <==>
            h in a.tokens && a.tokens[h].purpose == Claim && InService(a.tokens[h], now) && a.tokens[h].user in a.users)
      && (r != Done ==> r == Refused(TokenInvalid))
  {
  }

  // So what is shown can be claimed, unless the account is active already.
  lemma PreviewedCanBeClaimed(a: Accounts, h: nat, password: string, now: int)
    requires RightLength(password)
    ensures Step(a, Redeem(h, Claim, password, now)).1.Activated? <==>
      Step(a, Preview(h, now)).1 == Done && a.users[a.tokens[h].user].verifiedAt == None
  {
  }

  // The other writers of accounts leave the tokens alone, and every account but one: making
  // a contact leaves an account there as it is; a reset changes the password of an account
  // there and only that; seeding the admin makes or activates the account.
  lemma AccountsDo(a: Accounts, user: nat, password: string, now: int)
    ensures
      var (b, r) := Step(a, CreateContact(user, now));
      b == (if user in a.users then a else a.(users := a.users[user := User(None, None)])) && r == Done
    ensures
      var (b, r) := Step(a, ResetPassword(user, password, now));
      && (r == Done <==> user in a.users) && (r != Done ==> r == Refused(TokenInvalid) && b == a)
      && (r == Done ==> b == a.(users := a.users[user := User(Some(password), a.users[user].verifiedAt)]))
    ensures
      Step(a, SeedAdmin(user, password, now)) == (a.(users := a.users[user := User(Some(password), Some(now))]), Done)
  {
  }
}
