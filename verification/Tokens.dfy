// Emailed single-use tokens of two purposes that share one activation path.
module Tokens {
  import opened Options

  datatype Purpose = Verify | Claim
  // A token is known by the hash of its raw value; hashing is injective.
  datatype Token = Token(user: nat, purpose: Purpose, expires: int, usedAt: Option<int>)
  datatype User = User(password: Option<string>, verifiedAt: Option<int>)
  datatype Accounts = Accounts(users: map<nat, User>, tokens: map<nat, Token>)

  datatype AuthError = TokenInvalid | PasswordInvalidLength | DatabaseError
  datatype Outcome = Activated(user: nat) | Refused(error: AuthError) | Done

  const VERIFY_TTL := 24 * 3600
  const CLAIM_TTL := 30 * 24 * 3600
  const MIN_PASSWORD_LENGTH := 8
  const MAX_PASSWORD_LENGTH := 128

  function Ttl(p: Purpose): int { if p.Verify? then VERIFY_TTL else CLAIM_TTL }

  predicate Live(t: Token, now: int) { t.usedAt.None? && t.expires > now }

  // Mint and redemption, with the outcome of the transaction they run in, and what else
  // writes accounts: a contact is made, a password reset, the admin seeded at start-up.
  datatype Op =
    | Mint(user: nat, purpose: Purpose, hash: nat, now: int)
    | Preview(hash: nat, now: int)
    | Redeem(hash: nat, purpose: Purpose, password: string, now: int)
    | CreateContact(user: nat, now: int)
    | ResetPassword(user: nat, password: string, now: int)
    | SeedAdmin(user: nat, password: string, now: int)

  function Invalidate(tokens: map<nat, Token>, user: nat, p: Purpose, now: int): map<nat, Token> {
    map h | h in tokens ::
      if tokens[h].user == user && tokens[h].purpose == p && Live(tokens[h], now)
      then tokens[h].(usedAt := Some(now)) else tokens[h]
  }

  // The account a redemption would activate.
  predicate Redeemable(a: Accounts, hash: nat, p: Purpose, password: string, now: int) {
    && MIN_PASSWORD_LENGTH <= |password| <= MAX_PASSWORD_LENGTH
    && hash in a.tokens && a.tokens[hash].purpose == p && Live(a.tokens[hash], now)
    && a.tokens[hash].user in a.users && a.users[a.tokens[hash].user].verifiedAt.None?
  }

  function Step(a: Accounts, op: Op): (Accounts, Outcome) {
    match op
    case Mint(u, p, h, now) =>
      if u !in a.users || h in a.tokens then (a, Refused(DatabaseError))
      else (a.(tokens := Invalidate(a.tokens, u, p, now)[h := Token(u, p, now + Ttl(p), None)]), Done)
    case Preview(h, now) =>
      if h in a.tokens && a.tokens[h].purpose.Claim? && Live(a.tokens[h], now) && a.tokens[h].user in a.users
      then (a, Done) else (a, Refused(TokenInvalid))
    case Redeem(h, p, password, now) =>
      if !(MIN_PASSWORD_LENGTH <= |password| <= MAX_PASSWORD_LENGTH) then (a, Refused(PasswordInvalidLength))
      else if !Redeemable(a, h, p, password, now) then (a, Refused(TokenInvalid))
      else
        var u := a.tokens[h].user;
        (Accounts(a.users[u := User(Some(password), Some(now))], a.tokens[h := a.tokens[h].(usedAt := Some(now))]),
         Activated(u))
    case CreateContact(u, now) =>
      if u in a.users then (a, Done) else (a.(users := a.users[u := User(None, None)]), Done)
    case ResetPassword(u, password, now) =>
      if u !in a.users then (a, Refused(TokenInvalid))
      else (a.(users := a.users[u := a.users[u].(password := Some(password))]), Done)
    case SeedAdmin(u, password, now) => (a.(users := a.users[u := User(Some(password), Some(now))]), Done)
  }

  function Run(a: Accounts, ops: seq<Op>): Accounts {
    if ops == [] then a else Step(Run(a, ops[..|ops|-1]), ops[|ops|-1]).0
  }

  // What the i-th operation of a run answers.
  function Answer(a: Accounts, ops: seq<Op>, i: nat): Outcome
    requires i < |ops|
  {
    Step(Run(a, ops[..i]), ops[i]).1
  }

  // ---- The store, updated in place ----

  class AccountStore {
    var users: map<nat, User>
    var tokens: map<nat, Token>

    function Now(): Accounts
      reads this
    {
      Accounts(users, tokens)
    }

    constructor ()
      ensures Now() == Accounts(map[], map[])
    {
      users, tokens := map[], map[];
    }

    method MintToken(user: nat, p: Purpose, hash: nat, now: int) returns (r: Outcome)
      modifies this`tokens
      ensures (Now(), r) == Step(old(Now()), Mint(user, p, hash, now))
    {
      if user !in users || hash in tokens { return Refused(DatabaseError); }
      tokens := Invalidate(tokens, user, p, now);
      tokens := tokens[hash := Token(user, p, now + Ttl(p), None)];
      return Done;
    }

    // The conditional UPDATE that claims a token: it either marks the token used and
    // names its user, or changes nothing.
    method ClaimToken(hash: nat, p: Purpose, now: int) returns (user: Option<nat>)
      modifies this`tokens
      ensures user.Some? <==> hash in old(tokens) && old(tokens)[hash].purpose == p && Live(old(tokens)[hash], now)
      ensures user.Some? ==> user.value == old(tokens)[hash].user
      ensures tokens == if user.Some? then old(tokens)[hash := old(tokens)[hash].(usedAt := Some(now))] else old(tokens)
    {
      if hash !in tokens || tokens[hash].purpose != p || !Live(tokens[hash], now) { return None; }
      user := Some(tokens[hash].user);
      tokens := tokens[hash := tokens[hash].(usedAt := Some(now))];
    }

    // An error rolls the transaction back, and with it the claim of the token.
    method RedeemAndActivate(hash: nat, p: Purpose, password: string, now: int) returns (r: Outcome)
      modifies this
      ensures (Now(), r) == Step(old(Now()), Redeem(hash, p, password, now))
    {
      if |password| < MIN_PASSWORD_LENGTH || |password| > MAX_PASSWORD_LENGTH {
        return Refused(PasswordInvalidLength);
      }
      var committed := tokens;
      var user := ClaimToken(hash, p, now);
      if user.None? { return Refused(TokenInvalid); }
      if user.value !in users || users[user.value].verifiedAt.Some? {
        tokens := committed;
        return Refused(TokenInvalid);
      }
      users := users[user.value := User(Some(password), Some(now))];
      return Activated(user.value);
    }

    method ClaimPreview(hash: nat, now: int) returns (r: Outcome)
      ensures (Now(), r) == Step(Now(), Preview(hash, now))
    {
      if hash !in tokens || !tokens[hash].purpose.Claim? || !Live(tokens[hash], now) { return Refused(TokenInvalid); }
      if tokens[hash].user !in users { return Refused(TokenInvalid); }
      return Done;
    }
  }

  // ---- What every run keeps ----

  predicate Clock(ops: seq<Op>, now: int) {
    && (forall i :: 0 <= i < |ops| ==> ops[i].now <= now)
    && (forall i, j :: 0 <= i < j < |ops| ==> ops[i].now <= ops[j].now)
  }

  predicate Rivals(s: Token, t: Token) { s.user == t.user && s.purpose == t.purpose }

  predicate OneLive(a: Accounts, now: int) {
    forall g, h | g in a.tokens && h in a.tokens && g != h && Rivals(a.tokens[g], a.tokens[h]) ::
      !(Live(a.tokens[g], now) && Live(a.tokens[h], now))
  }

  predicate VerifiedHasPassword(a: Accounts) {
    forall u :: u in a.users && a.users[u].verifiedAt.Some? ==> a.users[u].password.Some?
  }

  // A token keeps its owner, purpose and expiry, and stays used; an account stays verified.
  predicate Onward(a: Accounts, b: Accounts) {
    && (forall h :: h in a.tokens ==> h in b.tokens && b.tokens[h].(usedAt := a.tokens[h].usedAt) == a.tokens[h]
                                      && (a.tokens[h].usedAt.Some? ==> b.tokens[h] == a.tokens[h]))
    && (forall u :: u in a.users ==> u in b.users && (a.users[u].verifiedAt.Some? ==> b.users[u].verifiedAt.Some?))
  }

  lemma StepKeeps(a: Accounts, op: Op)
    requires OneLive(a, op.now)
    ensures OneLive(Step(a, op).0, op.now) && Onward(a, Step(a, op).0)
    ensures VerifiedHasPassword(a) ==> VerifiedHasPassword(Step(a, op).0)
  {
    match op
    case Mint(u, p, h, now) => MintKeeps(a, u, p, h, now);
    case Redeem(h, p, password, now) => RedeemKeeps(a, h, p, password, now);
    case Preview(h, now) =>
    case _ => AccountsKeep(a, op);
  }

  lemma MintKeeps(a: Accounts, u: nat, p: Purpose, h: nat, now: int)
    requires OneLive(a, now)
    ensures var r := Step(a, Mint(u, p, h, now)).0; OneLive(r, now) && Onward(a, r) && r.users == a.users
  {
    if u in a.users && h !in a.tokens {
      var tokens := Invalidate(a.tokens, u, p, now);
      var t := tokens[h := Token(u, p, now + Ttl(p), None)];
      forall g | g in t && g != h && Rivals(t[g], t[h])
        ensures !Live(t[g], now)
      {
        assert t[g] == tokens[g];
      }
    }
  }

  lemma RedeemKeeps(a: Accounts, h: nat, p: Purpose, password: string, now: int)
    requires OneLive(a, now)
    ensures var r := Step(a, Redeem(h, p, password, now)).0;
      && OneLive(r, now) && Onward(a, r)
      && (VerifiedHasPassword(a) ==> VerifiedHasPassword(r))
  {
  }

  lemma AccountsKeep(a: Accounts, op: Op)
    requires OneLive(a, op.now) && (op.CreateContact? || op.ResetPassword? || op.SeedAdmin?)
    ensures var r := Step(a, op).0;
      && r.tokens == a.tokens && OneLive(r, op.now) && Onward(a, r)
      && (VerifiedHasPassword(a) ==> VerifiedHasPassword(r))
  {
  }

  lemma {:induction false} RunKeeps(a: Accounts, ops: seq<Op>, now: int)
    requires Clock(ops, now) && (ops != [] ==> OneLive(a, ops[0].now)) && (ops == [] ==> OneLive(a, now))
    ensures OneLive(Run(a, ops), now) && Onward(a, Run(a, ops))
    ensures VerifiedHasPassword(a) ==> VerifiedHasPassword(Run(a, ops))
  {
    if ops != [] {
      var pre, last := ops[..|ops|-1], ops[|ops|-1];
      if pre == [] { assert OneLive(a, last.now); }
      RunKeeps(a, pre, last.now);
      StepKeeps(Run(a, pre), last);
    }
  }

  lemma {:induction false} RunAppend(a: Accounts, x: seq<Op>, y: seq<Op>)
    ensures Run(a, x + y) == Run(Run(a, x), y)
  {
    if y == [] {
      assert x + y == x;
    } else {
      assert (x + y)[..|x + y|-1] == x + y[..|y|-1];
      RunAppend(a, x, y[..|y|-1]);
    }
  }

  // State j of a run, seen from the state just after operation i.
  lemma FromHere(a: Accounts, ops: seq<Op>, i: nat, j: nat, now: int)
    requires i < j < |ops| && Clock(ops, now) && OneLive(a, ops[0].now)
    ensures Onward(Step(Run(a, ops[..i]), ops[i]).0, Run(a, ops[..j]))
    ensures OneLive(Run(a, ops[..j]), ops[j].now)
  {
    var here := Run(a, ops[..i+1]);
    assert ops[..i+1][..i] == ops[..i];
    RunAppend(a, ops[..i+1], ops[i+1..j]);
    assert ops[..i+1] + ops[i+1..j] == ops[..j];
    RunKeeps(a, ops[..i+1], ops[i+1].now);
    RunKeeps(here, ops[i+1..j], ops[j].now);
  }

  // ---- Promises ----

  // At any instant a user has at most one token of each purpose that could be redeemed.
  lemma OneLiveToken(ops: seq<Op>, now: int, g: nat, h: nat)
    requires Clock(ops, now) && g != h
    ensures var t := Run(Accounts(map[], map[]), ops).tokens;
      g in t && h in t && Rivals(t[g], t[h]) ==> !(Live(t[g], now) && Live(t[h], now))
  {
    RunKeeps(Accounts(map[], map[]), ops, now);
  }

  // An account is activated by an emailed token at most once, whatever the purposes of
  // the tokens; so no token, either, ever redeems twice.
  lemma OneActivation(a: Accounts, ops: seq<Op>, i: nat, j: nat, now: int)
    requires i < j < |ops| && Clock(ops, now) && OneLive(a, ops[0].now)
    requires Answer(a, ops, i).Activated?
    ensures Answer(a, ops, j) != Answer(a, ops, i)
    ensures ops[j].Redeem? && ops[j].hash == ops[i].hash ==> Answer(a, ops, j).Refused?
  {
    FromHere(a, ops, i, j, now);
    var after := Step(Run(a, ops[..i]), ops[i]).0;
    assert ops[i].hash in after.tokens && after.tokens[ops[i].hash].usedAt.Some?;
  }

  // An account that was active before the run is never activated in it, and keeps the
  // password it has unless it is reset or seeded.
  lemma ActiveAccountIsOwned(a: Accounts, ops: seq<Op>, i: nat, u: nat, now: int)
    requires i < |ops| && Clock(ops, now) && OneLive(a, ops[0].now)
    requires u in a.users && a.users[u].verifiedAt.Some?
    ensures Answer(a, ops, i) != Activated(u)
    ensures !ops[i].ResetPassword? && !ops[i].SeedAdmin? ==>
      var before, after := Run(a, ops[..i]), Step(Run(a, ops[..i]), ops[i]).0;
      u in before.users && u in after.users && after.users[u] == before.users[u]
  {
    RunKeeps(a, ops[..i], ops[i].now);
  }

  lemma VerifiedImpliesPassword(ops: seq<Op>, now: int, u: nat)
    requires Clock(ops, now)
    ensures var users := Run(Accounts(map[], map[]), ops).users;
      u in users && users[u].verifiedAt.Some? ==> users[u].password.Some?
  {
    RunKeeps(Accounts(map[], map[]), ops, now);
  }

  // The operations that take a token of user u and purpose p out of service early.
  predicate Disturbs(a: Accounts, op: Op, u: nat, p: Purpose) {
    || (op.Mint? && op.user == u && op.purpose == p)
    || (op.SeedAdmin? && op.user == u)
    || Step(a, op).1 == Activated(u)
  }

  predicate Pending(a: Accounts, h: nat, t: Token) {
    && h in a.tokens && a.tokens[h] == t && t.usedAt.None?
    && t.user in a.users && a.users[t.user].verifiedAt.None?
  }

  predicate Undisturbed(a: Accounts, ops: seq<Op>, t: Token) {
    forall i :: 0 <= i < |ops| ==> !Disturbs(Run(a, ops[..i]), ops[i], t.user, t.purpose)
  }

  lemma PendingStep(a: Accounts, op: Op, h: nat, t: Token)
    requires Pending(a, h, t) && !Disturbs(a, op, t.user, t.purpose)
    ensures Pending(Step(a, op).0, h, t)
  {
  }

  // Nothing else burns a token: not previews, not refused redemptions (of this token or
  // another, with a bad password or the wrong purpose), not resets. Until it expires its
  // holder can redeem it.
  lemma {:induction false} TokenSurvives(a: Accounts, ops: seq<Op>, h: nat, t: Token)
    requires Pending(a, h, t) && Undisturbed(a, ops, t)
    ensures Pending(Run(a, ops), h, t)
  {
    if ops != [] {
      var pre := ops[..|ops|-1];
      forall i | 0 <= i < |pre| ensures !Disturbs(Run(a, pre[..i]), pre[i], t.user, t.purpose) {
        assert pre[..i] == ops[..i] && !Disturbs(Run(a, ops[..i]), ops[i], t.user, t.purpose);
      }
      TokenSurvives(a, pre, h, t);
      assert !Disturbs(Run(a, pre), ops[|ops|-1], t.user, t.purpose);
      PendingStep(Run(a, pre), ops[|ops|-1], h, t);
    }
  }

  lemma SurvivorRedeems(a: Accounts, ops: seq<Op>, h: nat, t: Token, password: string, now: int)
    requires Pending(a, h, t) && Undisturbed(a, ops, t) && now < t.expires
    ensures Step(Run(a, ops), Redeem(h, t.purpose, password, now)).1
      == if MIN_PASSWORD_LENGTH <= |password| <= MAX_PASSWORD_LENGTH then Activated(t.user)
         else Refused(PasswordInvalidLength)
  {
    TokenSurvives(a, ops, h, t);
  }

  // From its minting on, a token of an account not yet active redeems exactly until its
  // time to live is over, for as long as nothing takes it out of service.
  lemma TokenLifetime(a: Accounts, user: nat, p: Purpose, h: nat, minted: int, ops: seq<Op>,
                      password: string, now: int)
    requires user in a.users && a.users[user].verifiedAt.None? && h !in a.tokens
    requires Undisturbed(Step(a, Mint(user, p, h, minted)).0, ops, Token(user, p, minted + Ttl(p), None))
    requires MIN_PASSWORD_LENGTH <= |password| <= MAX_PASSWORD_LENGTH
    ensures var later := Run(Step(a, Mint(user, p, h, minted)).0, ops);
      Step(later, Redeem(h, p, password, now)).1
        == if now < minted + Ttl(p) then Activated(user) else Refused(TokenInvalid)
  {
    var b, t := Step(a, Mint(user, p, h, minted)).0, Token(user, p, minted + Ttl(p), None);
    assert Pending(b, h, t);
    TokenSurvives(b, ops, h, t);
  }
}
